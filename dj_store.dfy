/** The two-deck store: the record of console state that every action
    replaces piece by piece, holding the two deck engines and the shared
    transport. Each action is a method of `Mixer` whose postcondition gives
    the new store fields and, through `DeckSpec`, the new state of the deck
    engines it drives. */
module DjStore {
  import opened Optional
  import opened Timing
  import opened Transport
  import DeckSpec
  import DeckProperties
  import BarSync
  import opened DeckEngine

  /** A track as the store knows it; `originalBPM` is what the user entered. */
  datatype Track = Track(name: string, bpm: real, key: string, url: Option<string>, originalBPM: Option<real>)

  datatype EqSettings = EqSettings(low: real, mid: real, high: real)

  datatype FxSettings = FxSettings(filter: real, reverb: real, delay: real)

  /** A partial effects update: only the fields that are present change. */
  datatype FxPatch = FxPatch(filter: Option<real>, reverb: Option<real>, delay: Option<real>)

  /** What the console shows for one deck. */
  datatype DeckUi = DeckUi(isPlaying: bool, track: Option<Track>, pitch: real, eq: EqSettings,
                           volume: real, fx: FxSettings, isSyncing: bool)

  /** The track waiting in the BPM dialog and the deck it is for. */
  datatype PendingTrack = PendingTrack(deck: DeckId, track: Track)

  /** One effect setter call forwarded to a deck engine. */
  datatype FxCall = SetFilter(value: real) | SetReverb(value: real) | SetDelay(value: real)

  /** The store's scalar fields, read together. */
  datatype StoreSettings = StoreSettings(crossfader: real, globalBPM: real, bpmSyncEnabled: bool,
                               isTransportRunning: bool, showBPMModal: bool,
                               pendingTrack: Option<PendingTrack>)

  /** The state a deck shows before anything is loaded. */
  const DefaultDeckUi: DeckUi :=
    DeckUi(false, None, 0.0, EqSettings(50.0, 50.0, 50.0), 75.0, FxSettings(50.0, 0.0, 0.0), false)

  /** The tempo a loaded track is synced from, when the deck shows a track
      whose `originalBPM` is set and truthy (not zero). */
  function SyncedOriginal(ui: DeckUi): (r: Option<real>)
    ensures r.Some? <==>
      ui.track.Some? && ui.track.value.originalBPM.Some? && ui.track.value.originalBPM.value != 0.0
    ensures r.Some? ==> r.value == ui.track.value.originalBPM.value
  {
    match ui.track
    case Some(t) => if t.originalBPM.Some? && t.originalBPM.value != 0.0 then t.originalBPM else None
    case None => None
  }

  /** The tempo a deck is synced to: the global tempo, or its own original
      tempo when it is set back to a 1:1 rate. */
  function TargetBPM(toGlobal: bool, globalBPM: real, originalBPM: real): real
  {
    if toGlobal then globalBPM else originalBPM
  }

  /** What the store does to a deck engine when it re-syncs the deck: a deck
      showing a track with an original tempo gets `setGlobalBPMSync(target,
      originalBPM)`; any other deck is left alone. */
  function RetargetDeck(s: DeckSpec.DeckState, ui: DeckUi, now: real, toGlobal: bool, globalBPM: real): (r: DeckSpec.DeckState)
    requires DeckSpec.Wf(s) && globalBPM != 0.0
    ensures DeckSpec.Wf(r)
    ensures SyncedOriginal(ui).None? ==> r == s
  {
    match SyncedOriginal(ui)
    case Some(orig) => DeckSpec.SetGlobalBPMSync(s, now, TargetBPM(toGlobal, globalBPM, orig), orig)
    case None => s
  }

  /** A re-synced deck with a player runs at its target tempo: synced to the
      global tempo it plays `globalBPM / originalBPM` times as fast, set
      back to its original tempo it plays at rate 1. */
  lemma RetargetDeckTempo(s: DeckSpec.DeckState, ui: DeckUi, now: real, toGlobal: bool, globalBPM: real)
    requires DeckSpec.Wf(s) && globalBPM != 0.0
    requires s.player.present
    requires SyncedOriginal(ui).Some? && SyncedOriginal(ui).value > 0.0
    ensures var orig := SyncedOriginal(ui).value;
      var r := RetargetDeck(s, ui, now, toGlobal, globalBPM);
      && r.tempo.currentBPM == TargetBPM(toGlobal, globalBPM, orig)
      && r.tempo.originalBPM == orig
      && r.tempo.basePlaybackRate * orig == r.tempo.currentBPM
      && (toGlobal ==> r.tempo.currentBPM == globalBPM)
      && (!toGlobal ==> r.tempo.basePlaybackRate == 1.0)
  {
    var orig := SyncedOriginal(ui).value;
    var target := TargetBPM(toGlobal, globalBPM, orig);
    DeckProperties.SetGlobalBPMSyncTempo(s, now, target, orig);
    DeckProperties.SetGlobalBPMSyncRate(s, now, target, orig);
  }

  /** Re-syncing is decided by the last target alone: switching sync off and
      back on at the same instant leaves a deck exactly as switching it on. */
  lemma RetargetLastWins(s: DeckSpec.DeckState, ui: DeckUi, now: real, first: bool, second: bool, globalBPM: real)
    requires DeckSpec.Wf(s) && globalBPM != 0.0
    ensures RetargetDeck(RetargetDeck(s, ui, now, first, globalBPM), ui, now, second, globalBPM)
         == RetargetDeck(s, ui, now, second, globalBPM)
  {
    match SyncedOriginal(ui)
    case None =>
    case Some(orig) =>
      var t2 := TargetBPM(second, globalBPM, orig);
      var s1 := DeckSpec.SetGlobalBPMSync(s, now, TargetBPM(first, globalBPM, orig), orig);
      SyncOverwrites(s1, s, now, t2, orig);
  }

  /** Syncing decides the tempo fields, and the rate and the bar snap flags
      and time wherever it recomputes them, so two decks that differ at most
      there before a sync agree after it. */
  lemma SyncOverwrites(x: DeckSpec.DeckState, y: DeckSpec.DeckState, now: real, globalBPM: real, originalBPM: real)
    requires DeckSpec.Wf(x) && DeckSpec.Wf(y) && globalBPM != 0.0
    requires x.player.present == y.player.present && x.isLoaded == y.isLoaded
    requires x == y.(tempo := x.tempo, player := y.player.(rate := x.player.rate),
                     snap := y.snap.(nextBarTime := x.snap.nextBarTime, isQueued := x.snap.isQueued,
                                     isGridAligned := x.snap.isGridAligned, isWaitingForBar := x.snap.isWaitingForBar))
    requires !(y.player.present && originalBPM > 0.0) ==>
      x.tempo.basePlaybackRate == y.tempo.basePlaybackRate && x.player.rate == y.player.rate
    requires !(y.player.present && y.isLoaded) ==> x.snap == y.snap
    ensures DeckSpec.SetGlobalBPMSync(x, now, globalBPM, originalBPM) == DeckSpec.SetGlobalBPMSync(y, now, globalBPM, originalBPM)
  {
    var ux := DeckSpec.UpdatePlaybackRate(DeckSpec.RetargetTempo(x, globalBPM, originalBPM));
    var uy := DeckSpec.UpdatePlaybackRate(DeckSpec.RetargetTempo(y, globalBPM, originalBPM));
    assert ux == uy.(snap := x.snap);
    if y.player.present && y.isLoaded {
      assert DeckSpec.PrepareForBeatSync(ux, now) == DeckSpec.PrepareForBeatSync(uy, now);
    } else {
      assert ux == uy;
    }
  }

  /** `{ ...fx, ...patch }`: the fields the patch gives replace the current
      ones, the others stay. */
  function MergeFx(fx: FxSettings, patch: FxPatch): (r: FxSettings)
    ensures patch.filter.Some? ==> r.filter == patch.filter.value
    ensures patch.filter.None? ==> r.filter == fx.filter
    ensures patch.reverb.Some? ==> r.reverb == patch.reverb.value
    ensures patch.reverb.None? ==> r.reverb == fx.reverb
    ensures patch.delay.Some? ==> r.delay == patch.delay.value
    ensures patch.delay.None? ==> r.delay == fx.delay
  {
    FxSettings(patch.filter.GetOr(fx.filter), patch.reverb.GetOr(fx.reverb), patch.delay.GetOr(fx.delay))
  }

  /** Merging the same patch twice is merging it once. */
  lemma MergeFxIdempotent(fx: FxSettings, patch: FxPatch)
    ensures MergeFx(MergeFx(fx, patch), patch) == MergeFx(fx, patch)
  {
  }

  /** An empty patch changes nothing. */
  lemma MergeFxEmpty(fx: FxSettings)
    ensures MergeFx(fx, FxPatch(None, None, None)) == fx
  {
  }

  /** `c` carries a value the patch gives for that setter. */
  predicate Given(patch: FxPatch, c: FxCall)
  {
    match c
    case SetFilter(v) => patch.filter == Some(v)
    case SetReverb(v) => patch.reverb == Some(v)
    case SetDelay(v) => patch.delay == Some(v)
  }

  /** The setter calls `setDeckFX` makes on the engine: filter, reverb and
      delay, in that order, each only when the patch gives it. */
  function Forwarded(patch: FxPatch): (calls: seq<FxCall>)
    ensures |calls| == (if patch.filter.Some? then 1 else 0)
                     + (if patch.reverb.Some? then 1 else 0)
                     + (if patch.delay.Some? then 1 else 0)
    ensures forall c :: c in calls ==> Given(patch, c)
    ensures patch.filter.Some? ==> SetFilter(patch.filter.value) in calls
    ensures patch.reverb.Some? ==> SetReverb(patch.reverb.value) in calls
    ensures patch.delay.Some? ==> SetDelay(patch.delay.value) in calls
  {
    (if patch.filter.Some? then [SetFilter(patch.filter.value)] else [])
    + (if patch.reverb.Some? then [SetReverb(patch.reverb.value)] else [])
    + (if patch.delay.Some? then [SetDelay(patch.delay.value)] else [])
  }

  /** The effect settings an engine ends with after the calls, in order. */
  function Replay(fx: FxSettings, calls: seq<FxCall>): FxSettings
    decreases |calls|
  {
    if calls == [] then fx
    else
      var next := match calls[0]
        case SetFilter(v) => fx.(filter := v)
        case SetReverb(v) => fx.(reverb := v)
        case SetDelay(v) => fx.(delay := v);
      Replay(next, calls[1..])
  }

  lemma {:induction false} ReplayAppend(fx: FxSettings, first: seq<FxCall>, second: seq<FxCall>)
    ensures Replay(fx, first + second) == Replay(Replay(fx, first), second)
    decreases |first|
  {
    if first == [] {
      assert first + second == second;
    } else {
      assert (first + second)[0] == first[0];
      assert (first + second)[1..] == first[1..] + second;
      var next := match first[0]
        case SetFilter(v) => fx.(filter := v)
        case SetReverb(v) => fx.(reverb := v)
        case SetDelay(v) => fx.(delay := v);
      ReplayAppend(next, first[1..], second);
    }
  }

  /** The engine and the console agree: replaying the forwarded calls over
      the effect settings gives exactly the merged settings the deck shows. */
  lemma ForwardedReplaysMerge(fx: FxSettings, patch: FxPatch)
    ensures Replay(fx, Forwarded(patch)) == MergeFx(fx, patch)
  {
    var f := if patch.filter.Some? then [SetFilter(patch.filter.value)] else [];
    var r := if patch.reverb.Some? then [SetReverb(patch.reverb.value)] else [];
    var d := if patch.delay.Some? then [SetDelay(patch.delay.value)] else [];
    ReplayAppend(fx, f, r);
    ReplayAppend(fx, f + r, d);
  }

  class Mixer {
    /** `Tone.Transport`: the one clock both decks and the store schedule on. */
    const transport: Transport

    var deckA: DeckAudioEngine?
    var deckB: DeckAudioEngine?
    var deckAState: DeckUi
    var deckBState: DeckUi
    var crossfader: real
    var globalBPM: real
    var bpmSyncEnabled: bool
    var isTransportRunning: bool
    var showBPMModal: bool
    var pendingTrack: Option<PendingTrack>

    /** The engine of deck `d`, if audio has been initialised. */
    function Engine(d: DeckId): DeckAudioEngine?
      reads this
    {
      if d == A then deckA else deckB
    }

    /** What the console shows for deck `d`. */
    function Ui(d: DeckId): DeckUi
      reads this
    {
      if d == A then deckAState else deckBState
    }

    function Settings(): StoreSettings
      reads this
    {
      StoreSettings(crossfader, globalBPM, bpmSyncEnabled, isTransportRunning, showBPMModal, pendingTrack)
    }

    /** The engine the BPM dialog's pending track is for. */
    function PendingEngine(): DeckAudioEngine?
      reads this
    {
      if pendingTrack.Some? then Engine(pendingTrack.value.deck) else null
    }

    /** Deck `d` has an engine with a loaded track. */
    predicate Playable(d: DeckId)
      reads this, Engine(d)
    {
      Engine(d) != null && Engine(d).isLoaded
    }

    /** Deck `d`'s engine, if any, plays slot `d` on the store's transport
        and keeps its own invariant. */
    ghost predicate EngineFits(d: DeckId)
      reads this, Engine(d)
    {
      Engine(d) != null ==> Engine(d).slot == d && Engine(d).transport == transport && Engine(d).Valid()
    }

    /** The store's invariant: the global tempo and the transport tempo are
        positive, the running flag mirrors the transport, and each engine is
        wired to its own slot of the shared transport. */
    ghost predicate Valid()
      reads this, deckA, deckB, transport
    {
      && globalBPM > 0.0
      && transport.bpm > 0.0
      && isTransportRunning == transport.running
      && EngineFits(A) && EngineFits(B)
    }

    /** Deck `d`'s engine was re-synced as `RetargetDeck` says, from the
        deck as it was before. */
    twostate predicate Retargeted(d: DeckId, now: real, toGlobal: bool, target: real)
      requires old(Engine(d)) == Engine(d)
      requires old(Engine(d) != null ==> Engine(d).Valid()) && target != 0.0
      reads this, Engine(d)
    {
      Engine(d) != null ==> Engine(d).State() == RetargetDeck(old(Engine(d).State()), Ui(d), now, toGlobal, target)
    }

    /** The store as created: no engines yet, default decks, 128 BPM with
        sync on, and a stopped transport with nothing scheduled. */
    constructor ()
      ensures Valid()
      ensures deckA == null && deckB == null
      ensures deckAState == DefaultDeckUi && deckBState == DefaultDeckUi
      ensures Settings() == StoreSettings(50.0, 128.0, true, false, false, None)
      ensures !transport.running && transport.pending == []
    {
      transport := new Transport();
      deckA := null;
      deckB := null;
      deckAState := DefaultDeckUi;
      deckBState := DefaultDeckUi;
      crossfader := 50.0;
      globalBPM := 128.0;
      bpmSyncEnabled := true;
      isTransportRunning := false;
      showBPMModal := false;
      pendingTrack := None;
    }

    /** Replace what the console shows for deck `d`. */
    method SetUi(d: DeckId, ui: DeckUi)
      modifies this
      ensures Ui(d) == ui && Ui(Other(d)) == old(Ui(Other(d)))
      ensures deckA == old(deckA) && deckB == old(deckB) && Settings() == old(Settings())
    {
      if d == A {
        deckAState := ui;
      } else {
        deckBState := ui;
      }
    }

    /** `initializeAudio`: once the audio context has `started`, two fresh
        engines are created and the transport tempo is set to 128 BPM. If
        starting fails nothing changes. */
    method InitializeAudio(started: bool)
      requires Valid()
      modifies this, transport
      ensures Valid()
      ensures Settings() == old(Settings()) && Ui(A) == old(Ui(A)) && Ui(B) == old(Ui(B))
      ensures transport.running == old(transport.running) && transport.pending == old(transport.pending)
      ensures !started ==> unchanged(this, transport)
      ensures started ==>
        && deckA != null && deckB != null && fresh(deckA) && fresh(deckB)
        && deckA.State() == DeckSpec.Initial && deckB.State() == DeckSpec.Initial
        && transport.bpm == 128.0
    {
      if started {
        var engineA := new DeckAudioEngine(A, transport);
        var engineB := new DeckAudioEngine(B, transport);
        transport.SetBpm(128.0);
        deckA := engineA;
        deckB := engineB;
      }
    }

    /** `playDeckOnNextBar`: a loaded deck is marked syncing and a start is
        scheduled `"+<beatsUntilNextBar>n"` ahead, as the source writes it
        (see `BarSync.AsWrittenLandsOnBarIff` for when that is the bar line). */
    method PlayDeckOnNextBar(d: DeckId, now: real)
      requires Valid() && now >= 0.0
      modifies this, transport
      ensures Valid()
      ensures deckA == old(deckA) && deckB == old(deckB) && Settings() == old(Settings())
      ensures Ui(Other(d)) == old(Ui(Other(d)))
      ensures transport.running == old(transport.running) && transport.bpm == old(transport.bpm)
      ensures !old(Playable(d)) ==> Ui(d) == old(Ui(d)) && transport.pending == old(transport.pending)
      ensures old(Playable(d)) ==>
        && Ui(d) == old(Ui(d)).(isSyncing := true)
        && transport.pending == old(transport.pending) + [Event(BarSync.AsWrittenStartTime(now, transport.bpm), StoreStart(d))]
    {
      var engine := Engine(d);
      if engine == null || !engine.isLoaded {
        return;
      }
      SetUi(d, Ui(d).(isSyncing := true));
      var startAt := BarSync.AsWrittenStartTime(now, transport.bpm);
      transport.Schedule(Event(startAt, StoreStart(d)));
    }

    /** `playDeck`: a loaded deck starts the transport if it is not running
        yet, then plays at once when it is deck A or the other deck is not
        playing, and otherwise is queued through `PlayDeckOnNextBar`. */
    method PlayDeck(d: DeckId, now: real)
      requires Valid() && now >= 0.0
      modifies this, Engine(d), transport
      ensures Valid()
      ensures deckA == old(deckA) && deckB == old(deckB)
      ensures Ui(Other(d)) == old(Ui(Other(d)))
      ensures !old(Playable(d)) ==> unchanged(this, transport) && (Engine(d) != null ==> unchanged(Engine(d)))
      ensures old(Playable(d)) ==>
        && Settings() == old(Settings()).(isTransportRunning := true)
        && transport.running
        && transport.bpm == (if old(isTransportRunning) then old(transport.bpm) else globalBPM)
      ensures old(Playable(d)) && (d == A || !old(Ui(Other(d))).isPlaying) ==>
        && Engine(d).State() == DeckSpec.Play(old(Engine(d).State()), now, false).deck
        && transport.pending == DeckSpec.ApplyOps(old(transport.pending), DeckSpec.Play(old(Engine(d).State()), now, false).ops, d)
        && Ui(d) == old(Ui(d)).(isPlaying := true)
      ensures old(Playable(d)) && d == B && old(Ui(A)).isPlaying ==>
        && unchanged(Engine(d))
        && Ui(d) == old(Ui(d)).(isSyncing := true)
        && transport.pending == old(transport.pending) + [Event(BarSync.AsWrittenStartTime(now, transport.bpm), StoreStart(d))]
    {
      var engine := Engine(d);
      if engine == null || !engine.isLoaded {
        return;
      }
      if !isTransportRunning {
        transport.SetBpm(globalBPM);
        transport.Start();
        isTransportRunning := true;
      }
      if d == A || !Ui(Other(d)).isPlaying {
        engine.Play(now, false);
        SetUi(d, Ui(d).(isPlaying := true));
      } else {
        PlayDeckOnNextBar(d, now);
      }
    }

    /** The callback `playDeckOnNextBar` scheduled: if the engine is still
        loaded it plays and the deck shows playing and no longer syncing. */
    method FireStoreStart(d: DeckId, now: real)
      requires Valid()
      modifies this, Engine(d), transport
      ensures Valid()
      ensures deckA == old(deckA) && deckB == old(deckB) && Settings() == old(Settings())
      ensures Ui(Other(d)) == old(Ui(Other(d)))
      ensures !old(Playable(d)) ==> unchanged(this, transport) && (Engine(d) != null ==> unchanged(Engine(d)))
      ensures old(Playable(d)) ==>
        && Engine(d).State() == DeckSpec.Play(old(Engine(d).State()), now, false).deck
        && transport.pending == DeckSpec.ApplyOps(old(transport.pending), DeckSpec.Play(old(Engine(d).State()), now, false).ops, d)
        && transport.running == old(transport.running) && transport.bpm == old(transport.bpm)
        && Ui(d) == old(Ui(d)).(isPlaying := true, isSyncing := false)
    {
      var engine := Engine(d);
      if engine == null || !engine.isLoaded {
        return;
      }
      engine.Play(now, false);
      SetUi(d, Ui(d).(isPlaying := true, isSyncing := false));
    }

    /** The running transport reaches callback `i` at time `now`: it is taken
        off the pending list and run, an engine's bar-aligned start or the
        store's next-bar start. */
    method RunDue(i: int, now: real) returns (fired: Event)
      requires Valid() && transport.running && IsNextDue(transport.pending, i, now)
      modifies this, Engine(transport.pending[i].action.deck), transport
      ensures Valid()
      ensures fired == old(transport.pending)[i]
      ensures deckA == old(deckA) && deckB == old(deckB) && Settings() == old(Settings())
      ensures var d := fired.action.deck;
        var rest := old(transport.pending)[..i] + old(transport.pending)[i + 1..];
        && Ui(Other(d)) == old(Ui(Other(d)))
        && (fired.action.EngineStart? ==>
              && Ui(d) == old(Ui(d)) && transport.pending == rest
              && (Engine(d) != null ==> Engine(d).State() == DeckSpec.OnScheduledStart(old(Engine(d).State()), fired.at)))
        && (fired.action.StoreStart? && !old(Playable(d)) ==>
              && Ui(d) == old(Ui(d)) && transport.pending == rest
              && (Engine(d) != null ==> unchanged(Engine(d))))
        && (fired.action.StoreStart? && old(Playable(d)) ==>
              && Engine(d).State() == DeckSpec.Play(old(Engine(d).State()), now, false).deck
              && transport.pending == DeckSpec.ApplyOps(rest, DeckSpec.Play(old(Engine(d).State()), now, false).ops, d)
              && Ui(d) == old(Ui(d)).(isPlaying := true, isSyncing := false))
    {
      fired := transport.TakeDue(i, now);
      match fired.action {
        case EngineStart(d) =>
          var engine := Engine(d);
          if engine != null {
            engine.OnScheduledStart(fired.at);
          }
        case StoreStart(d) =>
          FireStoreStart(d, now);
      }
    }

    /** `pauseDeck`: an existing engine is paused and the deck shows stopped.
        Pausing a playing deck cancels every pending transport callback, the
        other deck's next-bar start included. */
    method PauseDeck(d: DeckId, now: real)
      requires Valid()
      modifies this, Engine(d), transport
      ensures Valid()
      ensures deckA == old(deckA) && deckB == old(deckB) && Settings() == old(Settings())
      ensures Ui(Other(d)) == old(Ui(Other(d)))
      ensures transport.running == old(transport.running) && transport.bpm == old(transport.bpm)
      ensures Engine(d) == null ==> unchanged(this, transport)
      ensures Engine(d) != null ==>
        && Engine(d).State() == DeckSpec.Pause(old(Engine(d).State()), now).deck
        && transport.pending == DeckSpec.ApplyOps(old(transport.pending), DeckSpec.Pause(old(Engine(d).State()), now).ops, d)
        && Ui(d) == old(Ui(d)).(isPlaying := false)
      ensures Engine(d) != null && old(Engine(d).player.present && Engine(d).isPlaying) ==> transport.pending == []
      ensures Engine(d) != null && !old(Engine(d).player.present && Engine(d).isPlaying) ==>
        transport.pending == old(transport.pending)
    {
      var engine := Engine(d);
      if engine != null {
        DeckProperties.PauseFacts(engine.State(), now);
        engine.Pause(now);
        SetUi(d, Ui(d).(isPlaying := false));
      }
    }

    /** `loadTrack`: the track waits in the BPM dialog, which opens. */
    method LoadTrack(d: DeckId, track: Track)
      modifies this
      ensures deckA == old(deckA) && deckB == old(deckB)
      ensures Ui(A) == old(Ui(A)) && Ui(B) == old(Ui(B))
      ensures Settings() == old(Settings()).(showBPMModal := true, pendingTrack := Some(PendingTrack(d, track)))
    {
      showBPMModal := true;
      pendingTrack := Some(PendingTrack(d, track));
    }

    /** The load step of `confirmTrackBPM` for a track with a URL on deck
        `d`: the engine loads it with the tempo the user entered and, on a
        successful decode, is synced to the global tempo when sync is on;
        the deck then shows the track with its original tempo, stopped. */
    method LoadConfirmed(d: DeckId, track: Track, originalBPM: real, outcome: DeckSpec.LoadOutcome, now: real)
      returns (loaded: bool)
      requires Valid() && Engine(d) != null
      requires outcome.Decoded? ==> outcome.duration >= 0.0
      modifies this, Engine(d)
      ensures Valid()
      ensures deckA == old(deckA) && deckB == old(deckB) && Settings() == old(Settings())
      ensures Ui(Other(d)) == old(Ui(Other(d)))
      ensures loaded <==> outcome.Decoded?
      ensures var l := DeckSpec.LoadTrack(old(Engine(d).State()), outcome, originalBPM, now);
        Engine(d).State() == if loaded && bpmSyncEnabled then DeckSpec.SetGlobalBPMSync(l, now, globalBPM, originalBPM) else l
      ensures Ui(d) == if loaded then old(Ui(d)).(track := Some(track.(originalBPM := Some(originalBPM))), isPlaying := false)
                       else old(Ui(d))
    {
      var engine := Engine(d);
      var trackWithBPM := track.(originalBPM := Some(originalBPM));
      loaded := engine.LoadTrack(outcome, originalBPM, now);
      if loaded {
        if bpmSyncEnabled {
          engine.SetGlobalBPMSync(now, globalBPM, originalBPM);
        }
        SetUi(d, Ui(d).(track := Some(trackWithBPM), isPlaying := false));
      }
    }

    /** `confirmTrackBPM(originalBPM)`: without a pending track, an engine for
        its deck or a URL nothing happens. Otherwise the track is loaded as
        `LoadConfirmed` says, and on a successful decode the dialog closes;
        on a failed decode it stays as it was. */
    method ConfirmTrackBPM(originalBPM: real, outcome: DeckSpec.LoadOutcome, now: real) returns (loaded: bool)
      requires Valid()
      requires outcome.Decoded? ==> outcome.duration >= 0.0
      modifies this, PendingEngine()
      ensures Valid()
      ensures deckA == old(deckA) && deckB == old(deckB)
      ensures var p := old(pendingTrack);
        var e := old(PendingEngine());
        if p.None? || e == null || p.value.track.url.None? || p.value.track.url.value == "" then
          !loaded && unchanged(this) && (e != null ==> unchanged(e))
        else
          && (loaded <==> outcome.Decoded?)
          && Settings() == if loaded then old(Settings()).(showBPMModal := false, pendingTrack := None) else old(Settings())
    {
      loaded := false;
      if pendingTrack.None? {
        return;
      }
      var d := pendingTrack.value.deck;
      var track := pendingTrack.value.track;
      if Engine(d) == null || track.url.None? || track.url.value == "" {
        return;
      }
      loaded := LoadConfirmed(d, track, originalBPM, outcome, now);
      if loaded {
        showBPMModal := false;
        pendingTrack := None;
      }
    }

    /** `setEQ`: with an engine present the deck shows the new EQ settings
        (the engine's filter gains are computed by `SignalParams.EqDb`). */
    method SetEQ(d: DeckId, eq: EqSettings)
      modifies this
      ensures deckA == old(deckA) && deckB == old(deckB) && Settings() == old(Settings())
      ensures Ui(Other(d)) == old(Ui(Other(d)))
      ensures Ui(d) == if Engine(d) != null then old(Ui(d)).(eq := eq) else old(Ui(d))
    {
      if Engine(d) != null {
        SetUi(d, Ui(d).(eq := eq));
      }
    }

    /** `setDeckFX`: the deck shows the merged effect settings whether or not
        an engine exists; an existing engine receives one setter call per
        field the patch gives. */
    method SetDeckFX(d: DeckId, patch: FxPatch) returns (calls: seq<FxCall>)
      modifies this
      ensures deckA == old(deckA) && deckB == old(deckB) && Settings() == old(Settings())
      ensures Ui(Other(d)) == old(Ui(Other(d)))
      ensures Ui(d) == old(Ui(d)).(fx := MergeFx(old(Ui(d)).fx, patch))
      ensures calls == if Engine(d) != null then Forwarded(patch) else []
    {
      SetUi(d, Ui(d).(fx := MergeFx(Ui(d).fx, patch)));
      calls := [];
      if Engine(d) != null {
        if patch.filter.Some? {
          calls := calls + [SetFilter(patch.filter.value)];
        }
        if patch.reverb.Some? {
          calls := calls + [SetReverb(patch.reverb.value)];
        }
        if patch.delay.Some? {
          calls := calls + [SetDelay(patch.delay.value)];
        }
      }
    }

    /** `scrubTrack`: a loaded deck's engine scrubs. */
    method ScrubTrack(d: DeckId, now: real, velocity: real)
      requires Valid()
      modifies Engine(d)
      ensures Valid()
      ensures Engine(d) != null ==>
        Engine(d).State() == if old(Engine(d).isLoaded) then DeckSpec.Scrub(old(Engine(d).State()), now, velocity) else old(Engine(d).State())
    {
      var engine := Engine(d);
      if engine != null && engine.isLoaded {
        engine.Scrub(now, velocity);
      }
    }

    /** `triggerBackspin`: an existing engine backspins; what the deck shows
        is left as it was. */
    method TriggerBackspin(d: DeckId, now: real, soundLoaded: bool)
      requires Valid()
      modifies Engine(d), transport
      ensures Valid()
      ensures transport.running == old(transport.running) && transport.bpm == old(transport.bpm)
      ensures Engine(d) == null ==> unchanged(transport)
      ensures Engine(d) != null ==>
        && Engine(d).State() == DeckSpec.TriggerBackspin(old(Engine(d).State()), now, soundLoaded).deck
        && transport.pending == DeckSpec.ApplyOps(old(transport.pending), DeckSpec.TriggerBackspin(old(Engine(d).State()), now, soundLoaded).ops, d)
    {
      var engine := Engine(d);
      if engine != null {
        engine.TriggerBackspin(now, soundLoaded);
      }
    }

    /** `bendTempo`: a loaded deck's engine bends its rate. */
    method BendTempo(d: DeckId, rate: real)
      requires Valid()
      modifies Engine(d)
      ensures Valid()
      ensures Engine(d) != null ==>
        Engine(d).State() == if old(Engine(d).isLoaded) then DeckSpec.BendTempo(old(Engine(d).State()), rate) else old(Engine(d).State())
    {
      var engine := Engine(d);
      if engine != null && engine.isLoaded {
        engine.BendTempo(rate);
      }
    }

    /** Re-sync deck `d` as `RetargetDeck` says, towards the global tempo or
        back to its original one. */
    method Retarget(d: DeckId, now: real, toGlobal: bool)
      requires Valid()
      modifies Engine(d)
      ensures Valid()
      ensures Retargeted(d, now, toGlobal, globalBPM)
    {
      var engine := Engine(d);
      if engine != null {
        var orig := SyncedOriginal(Ui(d));
        if orig.Some? {
          engine.SetGlobalBPMSync(now, TargetBPM(toGlobal, globalBPM, orig.value), orig.value);
        }
      }
    }

    /** `syncDeckToGlobal`: a deck with an engine and an original tempo is
        synced to the global tempo. */
    method SyncDeckToGlobal(d: DeckId, now: real)
      requires Valid()
      modifies Engine(d)
      ensures Valid()
      ensures Retargeted(d, now, true, globalBPM)
    {
      Retarget(d, now, true);
    }

    /** `syncDecks`: with both engines present and a track on deck B, deck B
        is synced to the global tempo, the transport takes the global tempo
        and runs, and deck B is queued as `PlayDeckOnNextBar` queues it. */
    method SyncDecks(now: real)
      requires Valid() && now >= 0.0
      modifies this, deckB, transport
      ensures Valid()
      ensures deckA == old(deckA) && deckB == old(deckB) && Ui(A) == old(Ui(A))
      ensures !(old(deckA) != null && old(deckB) != null && old(deckBState).track.Some?) ==>
        unchanged(this, transport) && (deckB != null ==> unchanged(deckB))
      ensures old(deckA) != null && old(deckB) != null && old(deckBState).track.Some? ==>
        && deckB.State() == RetargetDeck(old(deckB.State()), deckBState, now, true, globalBPM)
        && Settings() == old(Settings()).(isTransportRunning := true)
        && transport.running && transport.bpm == globalBPM
        && (old(deckB.isLoaded) ==>
              && Ui(B) == old(Ui(B)).(isSyncing := true)
              && transport.pending == old(transport.pending) + [Event(BarSync.AsWrittenStartTime(now, globalBPM), StoreStart(B))])
        && (!old(deckB.isLoaded) ==> Ui(B) == old(Ui(B)) && transport.pending == old(transport.pending))
    {
      if deckA == null || deckB == null || deckBState.track.None? {
        return;
      }
      SyncDeckToGlobal(B, now);
      transport.SetBpm(globalBPM);
      if !isTransportRunning {
        transport.Start();
        isTransportRunning := true;
      }
      PlayDeckOnNextBar(B, now);
    }

    /** `setGlobalBPM(bpm)`: the global and transport tempo become
        `Math.round(bpm)`; with sync on, each deck with an original tempo is
        synced to it. */
    method SetGlobalBPM(bpm: real, now: real)
      requires Valid()
      requires JsRound(bpm) > 0.0
      modifies this, deckA, deckB, transport
      ensures Valid()
      ensures deckA == old(deckA) && deckB == old(deckB) && Ui(A) == old(Ui(A)) && Ui(B) == old(Ui(B))
      ensures Settings() == old(Settings()).(globalBPM := JsRound(bpm))
      ensures transport.bpm == JsRound(bpm)
      ensures bpm == bpm.Floor as real ==> globalBPM == bpm
      ensures transport.running == old(transport.running) && transport.pending == old(transport.pending)
      ensures bpmSyncEnabled ==> Retargeted(A, now, true, globalBPM) && Retargeted(B, now, true, globalBPM)
      ensures !bpmSyncEnabled ==>
        (deckA != null ==> unchanged(deckA)) && (deckB != null ==> unchanged(deckB))
    {
      JsRoundWhole(bpm.Floor);
      var snappedBPM := JsRound(bpm);
      globalBPM := snappedBPM;
      transport.SetBpm(snappedBPM);
      if bpmSyncEnabled {
        Retarget(A, now, true);
        Retarget(B, now, true);
      }
    }

    /** `toggleBPMSync`: sync flips; switching it on syncs each deck with an
        original tempo to the global tempo, switching it off sets each such
        deck back to its original tempo. */
    method ToggleBPMSync(now: real)
      requires Valid()
      modifies this, deckA, deckB
      ensures Valid()
      ensures deckA == old(deckA) && deckB == old(deckB) && Ui(A) == old(Ui(A)) && Ui(B) == old(Ui(B))
      ensures Settings() == old(Settings()).(bpmSyncEnabled := !old(bpmSyncEnabled))
      ensures Retargeted(A, now, bpmSyncEnabled, globalBPM) && Retargeted(B, now, bpmSyncEnabled, globalBPM)
    {
      var newSyncState := !bpmSyncEnabled;
      bpmSyncEnabled := newSyncState;
      Retarget(A, now, newSyncState);
      Retarget(B, now, newSyncState);
    }

    /** `resetToOriginalBPMs`: each deck with an original tempo is set back
        to it, at rate 1. */
    method ResetToOriginalBPMs(now: real)
      requires Valid()
      modifies deckA, deckB
      ensures Valid()
      ensures Retargeted(A, now, false, globalBPM) && Retargeted(B, now, false, globalBPM)
    {
      Retarget(A, now, false);
      Retarget(B, now, false);
    }

    /** `setShowBPMModal(show)`: closing the dialog also drops its track. */
    method SetShowBPMModal(show: bool)
      modifies this
      ensures deckA == old(deckA) && deckB == old(deckB) && Ui(A) == old(Ui(A)) && Ui(B) == old(Ui(B))
      ensures Settings() == old(Settings()).(showBPMModal := show,
                                            pendingTrack := if show then old(pendingTrack) else None)
    {
      showBPMModal := show;
      if !show {
        pendingTrack := None;
      }
    }

    /** `cleanup`: both engines are disposed, the transport stops and every
        pending callback is dropped. */
    method Cleanup()
      requires Valid()
      modifies this, deckA, deckB, transport
      ensures Valid()
      ensures deckA == old(deckA) && deckB == old(deckB) && Ui(A) == old(Ui(A)) && Ui(B) == old(Ui(B))
      ensures Settings() == old(Settings()).(isTransportRunning := false)
      ensures !transport.running && transport.pending == [] && transport.bpm == old(transport.bpm)
      ensures deckA != null ==> deckA.State() == DeckSpec.Dispose(old(deckA.State()))
      ensures deckB != null ==> deckB.State() == DeckSpec.Dispose(old(deckB.State()))
    {
      if deckA != null {
        deckA.Dispose();
      }
      if deckB != null {
        deckB.Dispose();
      }
      transport.Stop();
      transport.Cancel();
      isTransportRunning := false;
    }
  }
}
