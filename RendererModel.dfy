/** Class `MIDIRenderer` of render_notes.py as a value: its settings, its
    clock, its flags and the keys' states, and each of its operations as a
    function from the old state to the new one. The class in module Renderer
    is proved against these functions. Pygame's clock, event queue, MIDI
    input and window focus are parameters. */
module RendererModel {
  import opened Wrappers
  import opened Pitches
  import opened Notes
  import opened KeyModel
  import Transpose

  /** The dataclass `GameSettings`, without the drawing fields (key size,
      lookahead). `transposeAmount` is the class attribute, 0 by default. */
  datatype GameSettings = GameSettings(
    recordingPlays: bool,
    keepInBounds: bool,
    macroOutput: bool,
    ignoreKeypresses: bool,
    playSounds: bool,
    timescale: real,
    paused: bool,
    progressionMode: bool,
    transposeAmount: int)

  /** What every settings object satisfies once constructed. */
  predicate SettingsOk(g: GameSettings)
  {
    g.macroOutput ==> g.ignoreKeypresses
  }

  /** Settings as `__post_init__` leaves them. No key of the renderer
      changes `macro_output` or `ignore_keypresses`, so every settings value
      the renderer holds is one of these. */
  type Settings = g: GameSettings | SettingsOk(g)
    witness GameSettings(false, false, false, false, false, 1.0, false, false, 0)

  /** `__post_init__`: macro output forces live keypresses to be ignored,
      and nothing else is touched. */
  function PostInit(g: GameSettings): (r: Settings)
    ensures r.(ignoreKeypresses := g.ignoreKeypresses) == g
    ensures SettingsOk(g) ==> r == g
  {
    if g.macroOutput then g.(ignoreKeypresses := true) else g
  }

  /** `GameSettings()` with its defaults. */
  function DefaultSettings(): Settings
  {
    PostInit(GameSettings(true, true, true, false, true, 1.0, true, false, 0))
  }

  function Max(a: real, b: real): (r: real)
    ensures r >= a && r >= b && (r == a || r == b)
  {
    if a >= b then a else b
  }

  // ---------------------------------------------------------------------
  // The keys

  /** The pitches from 48 up to `n` that satisfy `keep`, in ascending
      order. With `keep` the test for owning a key, this is the order in
      which `_setup_keys` creates the keys, which every loop over the keys
      follows. */
  function PitchesBelow(n: int, keep: int -> bool): seq<int>
    decreases n - LowestNote
  {
    if n <= LowestNote then [] else PitchesBelow(n - 1, keep) + (if keep(n - 1) then [n - 1] else [])
  }

  /** `PitchesBelow(n, keep)` holds, in ascending order, exactly the pitches
      from 48 up to `n` that satisfy `keep`. */
  lemma {:induction false} PitchesBelowSpec(n: int, keep: int -> bool)
    ensures forall i, j :: 0 <= i < j < |PitchesBelow(n, keep)| ==> PitchesBelow(n, keep)[i] < PitchesBelow(n, keep)[j]
    ensures forall p :: p in PitchesBelow(n, keep) <==> LowestNote <= p < n && keep(p)
    decreases n - LowestNote
  {
    if n > LowestNote {
      PitchesBelowSpec(n - 1, keep);
      var prev := PitchesBelow(n - 1, keep);
      forall i | 0 <= i < |prev|
        ensures prev[i] < n - 1
      {
        assert prev[i] in prev;
      }
    }
  }

  /** Every key, in creation order. */
  function KeyOrder(): (r: seq<int>)
    ensures forall i, j :: 0 <= i < j < |r| ==> r[i] < r[j]
    ensures forall p :: p in r <==> HasKey(p)
  {
    PitchesBelowSpec(HighestNote, HasKey);
    assert forall p :: HasKey(p) ==> LowestNote <= p < HighestNote;
    PitchesBelow(HighestNote, HasKey)
  }

  /** The renderer as a value. `lastUpdate` is the wall-clock time of the
      previous frame, None before the first. `order` is the insertion order
      of the key dictionary, which every loop over the keys follows. */
  datatype RState = RState(
    settings: Settings,
    now: real,
    enqueueAt: real,
    isDone: bool,
    isStaggered: bool,
    recordingMode: bool,
    windowFocused: bool,
    lastUpdate: Option<real>,
    keys: map<int, KeyState>,
    order: seq<int>)

  /** The renderer's invariant: one key per pitch that owns a letter, each
      knowing its own pitch and letter, in creation order. */
  ghost predicate Valid(s: RState)
  {
    && s.order == KeyOrder()
    && (forall p :: p in s.keys <==> HasKey(p))
    && (forall p :: p in s.keys ==> s.keys[p].pitch == p && s.keys[p].letter == KeyLetter(p))
  }

  /** The renderer as `__init__` leaves it: the clock at zero, the queue
      starting at two seconds, no frame seen yet, and one fresh key per
      pitch that owns a letter. */
  function Initial(g: Settings): (r: RState)
    ensures Valid(r)
  {
    RState(g, 0.0, 2.0, false, true, false, true, None, FreshKeys(), KeyOrder())
  }

  /** One new key per pitch of the layout. */
  function FreshKeys(): (ks: map<int, KeyState>)
  {
    map p | p in KeyOrder() :: Fresh(p, KeyLetter(p))
  }

  /** What the keys read from the renderer at this moment. */
  function Env(s: RState): (env: KeyEnv)
    ensures MacroIgnoresKeypresses(env)
  {
    KeyEnv(s.settings.recordingPlays, s.settings.playSounds, s.settings.macroOutput,
           s.settings.ignoreKeypresses, s.windowFocused, s.recordingMode, s.now)
  }

  /** A pygame key code: the keys the renderer reacts to, the letter keys
      (`LetterKey('p')` is K_p) and the rest. */
  datatype KeyCode =
    | Escape | Digit0 | Digit1 | Digit2 | Digit3
    | ArrowLeft | ArrowRight | ArrowUp | ArrowDown
    | LetterKey(c: char)
    | OtherKey

  /** The key code of a key square's letter: pygame names letter keys in lower case. */
  function CodeOf(k: KeyState): KeyCode
  {
    LetterKey(Lower(k.letter))
  }

  /** What one pass over all keys does to each of them. */
  datatype KeyOp =
    | UpdateOp                 // update(now)
    | BackoutOp                // backout_before(now)
    | ClearOp                  // when.clear(); real_up()
    | PressOp(code: KeyCode)   // real_down(was_keypress=True) on the key with that code
    | ReleaseOp(code: KeyCode) // real_up(was_keypress=True) on the key with that code

  function Apply(op: KeyOp, k: KeyState, env: KeyEnv): (r: Step)
    requires MacroIgnoresKeypresses(env)
    ensures r.key.pitch == k.pitch && r.key.letter == k.letter
  {
    match op
    case UpdateOp => ReplayKeepsIdentity(k.(whenIx := DueEnd(k.when, k.whenIx, env.now)), env,
                       DueEnd(k.when, k.whenIx, env.now) - k.whenIx);
                     Update(k, env, env.now)
    case BackoutOp => BackoutBefore(k, env, env.now)
    case ClearOp => ClearAndRelease(k, env)
    case PressOp(code) => if code == CodeOf(k) then RealDown(k, env, true) else Step(k, [], false)
    case ReleaseOp(code) => if code == CodeOf(k) then RealUp(k, env, true) else Step(k, [], false)
  }

  lemma {:induction false} ReplayKeepsIdentity(k: KeyState, env: KeyEnv, n: nat)
    requires MacroIgnoresKeypresses(env)
    ensures Replay(k, env, n).key.pitch == k.pitch && Replay(k, env, n).key.letter == k.letter
    decreases n
  {
    if n > 0 {
      ReplayKeepsIdentity(ToggleOnce(k, env).key, env, n - 1);
    }
  }

  /** The outcome of a pass over the keys: the keys, the effect log, and
      whether an exception ended the pass. */
  datatype Sweep = Sweep(keys: map<int, KeyState>, effects: seq<Effect>, faulted: bool)

  /** `for k_id in self.keys: ...`: the operation on each key in `order`; an
      exception ends the pass with the keys as they are at that moment. A
      pitch of `order` without a key is passed over (for a valid renderer
      `order` is exactly the pitches of its keys). The effects are appended
      to `log`, the effects issued earlier in the same frame. */
  function SweepKeys(ks: map<int, KeyState>, order: seq<int>, op: KeyOp, env: KeyEnv, log: seq<Effect>): (r: Sweep)
    requires MacroIgnoresKeypresses(env)
    ensures r.keys.Keys == ks.Keys
    decreases |order|
  {
    if order == [] then Sweep(ks, log, false)
    else if order[0] !in ks then SweepKeys(ks, order[1..], op, env, log)
    else
      var s := Apply(op, ks[order[0]], env);
      var ks' := ks[order[0] := s.key];
      if s.faulted then Sweep(ks', log + s.effects, true)
      else SweepKeys(ks', order[1..], op, env, log + s.effects)
  }

  // ---------------------------------------------------------------------
  // Queries

  /** `_transform_pitch`: add the transposition, then fold by octaves into
      [48, 84] when `keep_in_bounds` is set. */
  function Transform(g: GameSettings, pitch: int): int
  {
    if g.keepInBounds then Fold(pitch + g.transposeAmount) else pitch + g.transposeAmount
  }

  /** With `keep_in_bounds` the result is within [48, 84] and a whole
      number of octaves away from the transposed pitch; without it, the
      transposed pitch itself. */
  lemma TransformSpec(g: GameSettings, pitch: int)
    ensures g.keepInBounds ==>
      LowestNote <= Transform(g, pitch) <= HighestNote && (Transform(g, pitch) - pitch - g.transposeAmount) % OctaveSemitones == 0
    ensures !g.keepInBounds ==> Transform(g, pitch) == pitch + g.transposeAmount
  {
    FoldSpec(pitch + g.transposeAmount);
  }

  /** `okay_to_progress` of the renderer: always when scheduled events play
      themselves, otherwise when no key is expected down but still up. */
  predicate OkayToProgress(s: RState)
  {
    s.settings.recordingPlays || forall p :: p in s.keys ==> KeyModel.OkayToProgress(s.keys[p])
  }

  /** `reviewing_recording`: in recording mode, some key still has events
      ahead of its cursor. */
  predicate ReviewingRecording(s: RState)
  {
    s.recordingMode && exists p :: p in s.keys && s.keys[p].whenIx != |s.keys[p].when|
  }

  /** `dump`: every key's (pitch, time) pairs, key after key in `order`. */
  function DumpKeys(ks: map<int, KeyState>, order: seq<int>): (r: seq<Note>)
  {
    if order == [] then []
    else
      var init := DumpKeys(ks, order[..|order| - 1]);
      var last := order[|order| - 1];
      if last in ks then init + Dump(ks[last]) else init
  }

  // ---------------------------------------------------------------------
  // `enqueue_file`

  /** What the note loop of `enqueue_file` has done after a prefix of the
      sorted notes: the keys with their appended times, the counts of notes
      that found a key and that did not, and the running `enqueue_at`. */
  datatype Placement = Placement(keys: map<int, KeyState>, ngood: nat, nbad: nat, enqueueAt: real)

  /** One note of the loop: route it to its key, if any, and push the
      running `enqueue_at` to its time. */
  function PlaceNote(r: Placement, g: GameSettings, n: Note, trDiff: int, offset: real): (r': Placement)
  {
    var what := Transform(g, n.pitch + trDiff);
    var when := n.time + offset;
    if what in r.keys then
      Placement(r.keys[what := r.keys[what].(when := r.keys[what].when + [when])],
                r.ngood + 1, r.nbad, Max(r.enqueueAt, when))
    else Placement(r.keys, r.ngood, r.nbad + 1, Max(r.enqueueAt, when))
  }

  function Place(ks: map<int, KeyState>, g: GameSettings, notes: seq<Note>, trDiff: int,
                 offset: real, enqueueAt: real): (r: Placement)
    decreases |notes|
  {
    if notes == [] then Placement(ks, 0, 0, enqueueAt)
    else PlaceNote(Place(ks, g, notes[..|notes| - 1], trDiff, offset, enqueueAt), g, notes[|notes| - 1], trDiff, offset)
  }

  /** Why `enqueue_file` returned: an exception (an empty file divides by
      zero; the reset may hit the recording assertion), a score below the
      threshold, or the counts of placed and unplaced notes. */
  datatype EnqueueOutcome =
    | Raised(fault: Fault)
    | Rejected(score: real)
    | Enqueued(ngood: nat, nbad: nat)

  datatype EnqueueFrame = EnqueueFrame(state: RState, effects: seq<Effect>, outcome: EnqueueOutcome)

  /** The optional queue reset: clear and release every key, then start the
      queue again at two seconds. */
  function Reset(s: RState, clearExisting: bool): (r: EnqueueFrame)
    ensures r.state.keys.Keys == s.keys.Keys
  {
    if !clearExisting then EnqueueFrame(s, [], Enqueued(0, 0))
    else
      var sw := SweepKeys(s.keys, s.order, ClearOp, Env(s), []);
      if sw.faulted then EnqueueFrame(s.(keys := sw.keys), sw.effects, Raised(StillHaveStuffToPlay))
      else EnqueueFrame(s.(keys := sw.keys, enqueueAt := 2.0), sw.effects, Enqueued(0, 0))
  }

  /** `enqueue_file` once the file is read into `notes`: the clock restarts
      before the tune is transposed. */
  function Enqueue(s: RState, notes: seq<Note>, clearExisting: bool, minConfidence: real): (r: EnqueueFrame)
  {
    EnqueueSolved(s.(now := 0.0), notes, Transpose.Solve(notes), clearExisting, minConfidence)
  }

  /** `enqueue_file` once `autotranspose` has answered: its exception, a
      score below the threshold, or the placement. */
  function EnqueueSolved(s: RState, notes: seq<Note>, solved: Result<(int, real)>,
                         clearExisting: bool, minConfidence: real): (r: EnqueueFrame)
  {
    if solved.Err? then EnqueueFrame(s, [], Raised(solved.fault))
    else if solved.value.1 < minConfidence then EnqueueFrame(s, [], Rejected(solved.value.1))
    else PlaceAll(s, notes, solved.value.0 - s.settings.transposeAmount, clearExisting)
  }

  /** `enqueue_file` once the shift is chosen: the optional reset, then the
      notes placed in time order, each shifted by `trDiff`. */
  function PlaceAll(s: RState, notes: seq<Note>, trDiff: int, clearExisting: bool): (r: EnqueueFrame)
  {
    var reset := Reset(s, clearExisting);
    if reset.outcome.Raised? then reset
    else PlaceInto(reset.state, SortByTime(notes), trDiff).(effects := reset.effects)
  }

  /** The placement loop of `enqueue_file` on the whole renderer: the
      notes go to the keys, the queue end moves, and the counts come back. */
  function PlaceInto(s: RState, notes: seq<Note>, trDiff: int): (r: EnqueueFrame)
  {
    var pl := Place(s.keys, s.settings, notes, trDiff, s.enqueueAt, s.enqueueAt);
    EnqueueFrame(s.(keys := pl.keys, enqueueAt := pl.enqueueAt), [], Enqueued(pl.ngood, pl.nbad))
  }

  // ---------------------------------------------------------------------
  // `update`

  /** The clock: advance by the elapsed wall-clock time, scaled, unless this
      is the first frame, the game is paused, or progression mode waits for
      a key. The wall-clock time is remembered either way. */
  function Tick(s: RState, wallTime: real): (r: RState)
  {
    var advance := s.lastUpdate.Some? && !s.settings.paused
      && (!s.settings.progressionMode || OkayToProgress(s));
    var now := if advance then s.now + (wallTime - s.lastUpdate.value) * s.settings.timescale else s.now;
    s.(now := now, lastUpdate := Some(wallTime))
  }

  /** A pygame event as the renderer sees it. */
  datatype Event = WindowClose | KeyDown(code: KeyCode) | KeyUp(code: KeyCode) | OtherEvent

  /** The state of the event loop: the renderer, the `play_sounds` value a
      seek saved (`prev_play`), the effects so far, the notes handed to
      `save`, whether the loop broke out, and whether an exception was raised. */
  datatype EventStep = EventStep(
    state: RState,
    prevPlay: Option<bool>,
    effects: seq<Effect>,
    saved: Option<seq<Note>>,
    stop: bool,
    faulted: bool)

  lemma KeyOrderCoversKeys(s: RState)
    requires Valid(s)
    ensures forall p :: p in s.order <==> p in s.keys
  {
  }

  /** Whether the keys of `t` are those of `s`, passed through a sweep. */
  ghost predicate SameKeys(s: RState, ks: map<int, KeyState>)
  {
    ks.Keys == s.keys.Keys
    && forall p :: p in ks ==> ks[p].pitch == s.keys[p].pitch && ks[p].letter == s.keys[p].letter
  }

  lemma SweptStaysValid(s: RState, ks: map<int, KeyState>)
    requires Valid(s) && SameKeys(s, ks)
    ensures Valid(s.(keys := ks))
  {
  }

  /** The left arrow: step back fifteen seconds, but not below zero, mute
      the sounds for this frame and rewind every key. */
  function Rewind(s: RState, log: seq<Effect>): (r: EventStep)
  {
    var s0 := Rewound(s);
    var sw := SweepKeys(s0.keys, s0.order, BackoutOp, Env(s0), log);
    EventStep(s0.(keys := sw.keys), Some(s.settings.playSounds), sw.effects, None, sw.faulted, sw.faulted)
  }

  /** The clock fifteen seconds back but not below zero, sounds muted. */
  function Rewound(s: RState): (r: RState)
  {
    s.(now := Max(0.0, s.now - 15.0), settings := s.settings.(playSounds := false))
  }

  /** The branches of KEYDOWN that precede the letter keys. Every branch
      tests a different key code, so at most one of them applies. */
  function Command(s: RState, prevPlay: Option<bool>, code: KeyCode, log: seq<Effect>): (r: EventStep)
  {
    match code
    case Escape => EventStep(s.(isDone := true), prevPlay, log, None, true, false)
    case Digit0 =>
      if s.recordingMode then EventStep(s.(isDone := true), prevPlay, log, Some(DumpKeys(s.keys, s.order)), true, false)
      else EventStep(s.(recordingMode := true, now := 0.0, settings := s.settings.(timescale := 1.0)), prevPlay, log, None, false, false)
    case ArrowRight =>
      EventStep(s.(now := s.now + 15.0, settings := s.settings.(playSounds := false)), Some(s.settings.playSounds), log, None, false, false)
    case ArrowLeft => Rewind(s, log)
    case _ => EventStep(s.(settings := Adjust(s.settings, code), isStaggered := s.isStaggered != (code == Digit2)), prevPlay, log, None, false, false)
  }

  /** The settings keys: arrows up and down change the speed (not below
      0.1), 1 and P pause or resume, 3 switches progression mode. (2 swaps
      the key layout, which only moves the squares on screen.) */
  function Adjust(g: Settings, code: KeyCode): (r: Settings)
    ensures r.macroOutput == g.macroOutput && r.ignoreKeypresses == g.ignoreKeypresses
  {
    if code == ArrowUp then g.(timescale := g.timescale + 0.1)
    else if code == ArrowDown then g.(timescale := Max(0.1, g.timescale - 0.1))
    else if code == Digit1 || code == LetterKey('p') then g.(paused := !g.paused)
    else if code == Digit3 then g.(progressionMode := !g.progressionMode)
    else g
  }

  /** A key press: the command, then (unless keypresses are ignored or the
      loop broke out) a press of the key square with that letter. */
  function PressKey(s: RState, prevPlay: Option<bool>, code: KeyCode, log: seq<Effect>): (r: EventStep)
  {
    var c := Command(s, prevPlay, code, log);
    if c.stop || c.state.settings.ignoreKeypresses then c
    else PressSquare(c.state, c.prevPlay, code, c.effects)
  }

  /** The key square whose letter was pressed goes down; an exception ends
      the loop. */
  function PressSquare(s: RState, prevPlay: Option<bool>, code: KeyCode, log: seq<Effect>): (r: EventStep)
  {
    var sw := SweepKeys(s.keys, s.order, PressOp(code), Env(s), log);
    EventStep(s.(keys := sw.keys), prevPlay, sw.effects, None, sw.faulted, sw.faulted)
  }

  /** A key release: release the key square with that letter (unless
      keypresses are ignored), then toggle the pause if the key was P. */
  function ReleaseKey(s: RState, prevPlay: Option<bool>, code: KeyCode, log: seq<Effect>): (r: EventStep)
  {
    var sw := if s.settings.ignoreKeypresses then Sweep(s.keys, log, false)
              else SweepKeys(s.keys, s.order, ReleaseOp(code), Env(s), log);
    var s1 := s.(keys := sw.keys);
    if sw.faulted then EventStep(s1, prevPlay, sw.effects, None, true, true)
    else EventStep(PauseKey(s1, code), prevPlay, sw.effects, None, false, false)
  }

  /** Releasing P pauses or resumes the game; other keys change nothing here. */
  function PauseKey(s: RState, code: KeyCode): (r: RState)
  {
    if code == LetterKey('p') then s.(settings := s.settings.(paused := !s.settings.paused)) else s
  }

  /** One event: closing the window breaks the loop, key presses and
      releases are handled as above, anything else is ignored. */
  function HandleEvent(s: RState, prevPlay: Option<bool>, ev: Event, log: seq<Effect>): (r: EventStep)
    ensures r.faulted || r.saved.Some? ==> r.stop
    ensures r.stop ==> r.faulted || r.state.isDone
  {
    match ev
    case WindowClose => EventStep(s.(isDone := true), prevPlay, log, None, true, false)
    case KeyDown(code) => PressKey(s, prevPlay, code, log)
    case KeyUp(code) => ReleaseKey(s, prevPlay, code, log)
    case OtherEvent => EventStep(s, prevPlay, log, None, false, false)
  }

  /** `for ev in pygame.event.get()`: until a `break` or an exception. */
  function HandleEvents(s: RState, prevPlay: Option<bool>, events: seq<Event>, log: seq<Effect>): (r: EventStep)
    decreases |events|
  {
    if events == [] then EventStep(s, prevPlay, log, None, false, false)
    else
      var e := HandleEvent(s, prevPlay, events[0], log);
      if e.stop then e
      else HandleEvents(e.state, e.prevPlay, events[1..], e.effects)
  }

  /** The result of a part of `update` that can raise. */
  datatype Frame = Frame(state: RState, effects: seq<Effect>, faulted: bool)

  /** MIDI input: each pitch played on the instrument toggles the key it
      transforms to, if there is one; an exception ends the loop. */
  function MidiToggles(ks: map<int, KeyState>, g: GameSettings, env: KeyEnv, pitches: seq<int>, log: seq<Effect>): (r: Sweep)
    requires MacroIgnoresKeypresses(env)
    ensures r.keys.Keys == ks.Keys
    decreases |pitches|
  {
    if pitches == [] then Sweep(ks, log, false)
    else
      var tr := Transform(g, pitches[0]);
      if tr !in ks then MidiToggles(ks, g, env, pitches[1..], log)
      else
        var st := RealToggle(ks[tr], env, false);
        var ks' := ks[tr := st.key];
        if st.faulted then Sweep(ks', log + st.effects, true)
        else MidiToggles(ks', g, env, pitches[1..], log + st.effects)
  }

  /** Everything `update` produces: the new renderer, the side effects, the
      notes written to a recording file, and whether an exception ended it. */
  datatype UpdateFrame = UpdateFrame(state: RState, effects: seq<Effect>, saved: Option<seq<Note>>, faulted: bool)

  /** The start of a frame: the clock, then the window focus. */
  function StartFrame(s: RState, wallTime: real, focused: bool): (r: RState)
  {
    Tick(s, wallTime).(windowFocused := focused)
  }

  /** The end of a frame, after the events: the MIDI input, every key's
      `update(now)`, and the restoring of `play_sounds` after a seek. An
      exception ends it where it is raised. */
  function EndFrame(s: RState, prevPlay: Option<bool>, log: seq<Effect>, midiIn: seq<int>): (r: Frame)
  {
    var m := MidiToggles(s.keys, s.settings, Env(s), midiIn, log);
    var s1 := s.(keys := m.keys);
    if m.faulted then Frame(s1, m.effects, true)
    else UpdateKeys(s1, prevPlay, m.effects)
  }

  /** Every key's `update(now)`, then `play_sounds` restored after a seek. */
  function UpdateKeys(s: RState, prevPlay: Option<bool>, log: seq<Effect>): (r: Frame)
  {
    var sw := SweepKeys(s.keys, s.order, UpdateOp, Env(s), log);
    var s1 := s.(keys := sw.keys);
    if sw.faulted then Frame(s1, sw.effects, true)
    else Frame(RestorePlay(s1, prevPlay), sw.effects, false)
  }

  /** `play_sounds` back to what it was before a seek in this frame. */
  function RestorePlay(s: RState, prevPlay: Option<bool>): (r: RState)
  {
    if prevPlay.Some? then s.(settings := s.settings.(playSounds := prevPlay.value)) else s
  }

  /** One frame: start it, handle the events, and unless an event raised,
      end it. */
  function UpdateRenderer(s: RState, wallTime: real, focused: bool, events: seq<Event>, midiIn: seq<int>): (r: UpdateFrame)
  {
    var ev := HandleEvents(StartFrame(s, wallTime, focused), None, events, []);
    if ev.faulted then UpdateFrame(ev.state, ev.effects, ev.saved, true)
    else
      var f := EndFrame(ev.state, ev.prevPlay, ev.effects, midiIn);
      UpdateFrame(f.state, f.effects, ev.saved, f.faulted)
  }
}
