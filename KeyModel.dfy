/** The state of one playable key (class `KeySquare` in render_notes.py) as a
    value, and each of its operations as a function from the old state to the
    new one. The class in module Keys is proved against these functions; the
    lemmas here say what the operations guarantee. */
module KeyModel {
  import opened Wrappers
  import opened Notes

  /** A side effect handed to a collaborator: a note-on or note-off sent to the
      sound output (velocity 127, channel 0), or a key press or release sent to
      the keystroke injector. */
  datatype Effect =
    | NoteOn(pitch: int)
    | NoteOff(pitch: int)
    | MacroKeyDown(key: char)
    | MacroKeyUp(key: char)

  /** One key: its pitch and keyboard letter never change; `when` is the list
      of toggle times, `whenIx` the cursor into it. `noteOn` records that a
      note-on was ever sent. */
  datatype KeyState = KeyState(
    pitch: int,
    letter: char,
    when: seq<real>,
    whenIx: nat,
    isReallyDown: bool,
    keyIsPressed: bool,
    shouldBeDown: bool,
    noteOn: bool)

  /** A key as the constructor leaves it. */
  function Fresh(pitch: int, letter: char): KeyState
  {
    KeyState(pitch, letter, [], 0, false, false, false, false)
  }

  /** What a key reads from its renderer: the settings, whether the window has
      input focus, whether the renderer is recording, and the virtual clock. */
  datatype KeyEnv = KeyEnv(
    recordingPlays: bool,
    playSounds: bool,
    macroOutput: bool,
    ignoreKeypresses: bool,
    windowFocused: bool,
    recordingMode: bool,
    now: real)

  /** Macro output suppresses live keypresses. The settings constructor makes
      this hold and nothing changes either flag later, so the assertion
      "Refuse!" of the key never fires. */
  predicate MacroIgnoresKeypresses(env: KeyEnv)
  {
    env.macroOutput ==> env.ignoreKeypresses
  }

  /** The outcome of an operation: the new key, the side effects in the order
      they were issued, and whether the recording assertion ("Still have stuff
      to play") fired, in which case `key` is the state at that moment. */
  datatype Step = Step(key: KeyState, effects: seq<Effect>, faulted: bool)

  predicate Odd(n: int) { n % 2 == 1 }

  /** The macro collaborator is sent the lower-case letter. */
  function Lower(c: char): (r: char)
    ensures 'A' <= c <= 'Z' ==> 'a' <= r <= 'z' && r as int - c as int == 32
    ensures !('A' <= c <= 'Z') ==> r == c
  {
    if 'A' <= c <= 'Z' then (c as int + 32) as char else c
  }

  // ---------------------------------------------------------------------
  // Cursor access

  /** `peek`: the event under the cursor, or None when the cursor is at or past the end. */
  function Peek(k: KeyState): (r: Option<real>)
    ensures r.Some? <==> k.whenIx < |k.when|
    ensures r.Some? ==> r.value == k.when[k.whenIx]
  {
    if k.whenIx < |k.when| then Some(k.when[k.whenIx]) else None
  }

  /** `pop`: advances the cursor by one exactly when there is an event under it. */
  function Pop(k: KeyState): (r: KeyState)
    ensures r == if Peek(k).Some? then k.(whenIx := k.whenIx + 1) else k
    ensures k.whenIx <= |k.when| ==> r.whenIx <= |r.when|
  {
    if k.whenIx < |k.when| then k.(whenIx := k.whenIx + 1) else k
  }

  /** `fake_toggle`: flips the expected state and nothing else. */
  function FakeToggle(k: KeyState): (r: KeyState)
    ensures r.shouldBeDown != k.shouldBeDown
    ensures r.(shouldBeDown := k.shouldBeDown) == k
  {
    k.(shouldBeDown := !k.shouldBeDown)
  }

  // ---------------------------------------------------------------------
  // Real transitions

  /** The recording tail of `real_down`/`real_up`: in recording mode the cursor
      must be at the end; then `now` is appended and the cursor follows it. */
  function RecordNow(k: KeyState, env: KeyEnv, effects: seq<Effect>): (r: Step)
    ensures r.effects == effects
    ensures r.faulted <==> env.recordingMode && k.whenIx != |k.when|
    ensures !env.recordingMode ==> r.key == k
    ensures env.recordingMode && !r.faulted ==>
      r.key == k.(when := k.when + [env.now], whenIx := |k.when| + 1)
    ensures r.faulted ==> r.key == k
  {
    if !env.recordingMode then Step(k, effects, false)
    else if k.whenIx != |k.when| then Step(k, effects, true)
    else Step(k.(when := k.when + [env.now], whenIx := k.whenIx + 1), effects, false)
  }

  /** `real_down`. A keypress marks the key pressed. Nothing else happens if the
      key is already down; otherwise it goes down, sends a note-on when sounds
      are on, sends a press-and-release of its letter to the macro collaborator
      when the transition did not come from a keypress and the window lacks
      focus, and records `now` in recording mode. */
  function RealDown(k: KeyState, env: KeyEnv, wasKeypress: bool): (r: Step)
    requires MacroIgnoresKeypresses(env)
    ensures k.isReallyDown ==>
      r == Step(k.(keyIsPressed := k.keyIsPressed || wasKeypress), [], false)
    ensures !k.isReallyDown ==> r.key.isReallyDown
    ensures r.effects != [] ==> !k.isReallyDown
    ensures !k.isReallyDown ==> (r.effects ==
      (if env.playSounds then [NoteOn(k.pitch)] else []) +
      (if env.macroOutput && !wasKeypress && !env.windowFocused
       then [MacroKeyDown(Lower(k.letter)), MacroKeyUp(Lower(k.letter))] else []))
    ensures r.key.noteOn == (k.noteOn || (!k.isReallyDown && env.playSounds))
    ensures !k.isReallyDown ==>
      r.key.keyIsPressed == (k.keyIsPressed || wasKeypress || (env.macroOutput && !env.windowFocused))
    ensures r.faulted <==> !k.isReallyDown && env.recordingMode && k.whenIx != |k.when|
    ensures !k.isReallyDown && env.recordingMode && !r.faulted ==>
      r.key.when == k.when + [env.now] && r.key.whenIx == |r.key.when|
    ensures !(env.recordingMode && !k.isReallyDown && !r.faulted) ==>
      r.key.when == k.when && r.key.whenIx == k.whenIx
    ensures r.key.shouldBeDown == k.shouldBeDown && r.key.pitch == k.pitch && r.key.letter == k.letter
  {
    var k0 := if wasKeypress then k.(keyIsPressed := true) else k;
    if k0.isReallyDown then Step(k0, [], false)
    else
      var k1 := k0.(isReallyDown := true);
      var k2 := if env.playSounds then k1.(noteOn := true) else k1;
      var e2 := if env.playSounds then [NoteOn(k.pitch)] else [];
      var macro := env.macroOutput && !wasKeypress && !env.windowFocused;
      var k3 := if macro then k2.(keyIsPressed := true) else k2;
      var e3 := if macro then e2 + [MacroKeyDown(Lower(k.letter)), MacroKeyUp(Lower(k.letter))] else e2;
      RecordNow(k3, env, e3)
  }

  /** `real_up`. A keypress marks the key released. Nothing else happens if the
      key is already up; otherwise it goes up, sends a note-off if a note-on was
      ever sent, clears the pressed mark a macro press left behind, and records
      `now` in recording mode. */
  function RealUp(k: KeyState, env: KeyEnv, wasKeypress: bool): (r: Step)
    requires MacroIgnoresKeypresses(env)
    ensures !k.isReallyDown ==>
      r == Step(k.(keyIsPressed := k.keyIsPressed && !wasKeypress), [], false)
    ensures !r.key.isReallyDown
    ensures r.effects != [] ==> k.isReallyDown
    ensures r.effects == (if k.isReallyDown && k.noteOn then [NoteOff(k.pitch)] else [])
    ensures r.key.noteOn == k.noteOn
    ensures k.isReallyDown ==> r.key.keyIsPressed == (k.keyIsPressed && !wasKeypress && !env.macroOutput)
    ensures r.faulted <==> k.isReallyDown && env.recordingMode && k.whenIx != |k.when|
    ensures k.isReallyDown && env.recordingMode && !r.faulted ==>
      r.key.when == k.when + [env.now] && r.key.whenIx == |r.key.when|
    ensures !(env.recordingMode && k.isReallyDown && !r.faulted) ==>
      r.key.when == k.when && r.key.whenIx == k.whenIx
    ensures r.key.shouldBeDown == k.shouldBeDown && r.key.pitch == k.pitch && r.key.letter == k.letter
  {
    var k0 := if wasKeypress then k.(keyIsPressed := false) else k;
    if !k0.isReallyDown then Step(k0, [], false)
    else
      var k1 := k0.(isReallyDown := false);
      var e1 := if k1.noteOn then [NoteOff(k.pitch)] else [];
      var k2 := if env.macroOutput && !wasKeypress && k1.keyIsPressed then k1.(keyIsPressed := false) else k1;
      RecordNow(k2, env, e1)
  }

  /** `real_toggle`: up if down, down if up; the real state always flips. */
  function RealToggle(k: KeyState, env: KeyEnv, wasKeypress: bool): (r: Step)
    requires MacroIgnoresKeypresses(env)
    ensures r.key.isReallyDown != k.isReallyDown
  {
    if k.isReallyDown then RealUp(k, env, wasKeypress) else RealDown(k, env, wasKeypress)
  }

  /** One consumed event: always a fake toggle, and a real toggle as well when
      scheduled events are replayed to the real output (`recording_plays`). */
  function ToggleOnce(k: KeyState, env: KeyEnv): (r: Step)
    requires MacroIgnoresKeypresses(env)
  {
    var f := FakeToggle(k);
    if env.recordingPlays then RealToggle(f, env, false) else Step(f, [], false)
  }

  /** `okay_to_progress`: a key holds the clock back only when it is expected
      down but is really up; being down ahead of time is tolerated. */
  function OkayToProgress(k: KeyState): (r: bool)
    ensures r <==> !(k.shouldBeDown && !k.isReallyDown)
  {
    (!k.shouldBeDown) || (k.shouldBeDown && k.isReallyDown)
  }

  /** `dump`: every recorded or scheduled time, paired with the key's pitch. */
  function Dump(k: KeyState): (r: seq<Note>)
    ensures |r| == |k.when|
    ensures forall i :: 0 <= i < |r| ==> r[i].pitch == k.pitch && r[i].time == k.when[i]
  {
    seq(|k.when|, i requires 0 <= i < |k.when| => Note(k.pitch, k.when[i]))
  }

  // ---------------------------------------------------------------------
  // Forward consumption: `update`

  /** Where the consume loop of `update` stops: the first index at or after
      `i` whose event lies in the future, or the end. A cursor past the end
      does not move. */
  function DueEnd(w: seq<real>, i: nat, now: real): (d: nat)
    ensures i <= d
    ensures d > i ==> d <= |w|
    ensures forall j :: i <= j < d ==> w[j] <= now
    ensures d < |w| ==> w[d] > now
    decreases |w| - i
  {
    if i < |w| && w[i] <= now then DueEnd(w, i + 1, now) else i
  }

  /** The toggle loop of `update`: `n` consumed events, each a ToggleOnce,
      stopping at the first fault. */
  function Replay(k: KeyState, env: KeyEnv, n: nat): (r: Step)
    requires MacroIgnoresKeypresses(env)
    decreases n
  {
    if n == 0 then Step(k, [], false)
    else
      var s := ToggleOnce(k, env);
      if s.faulted then s
      else
        var rest := Replay(s.key, env, n - 1);
        Step(rest.key, s.effects + rest.effects, rest.faulted)
  }

  /** `update(now)`: consume every due event, then toggle once per consumed event. */
  function Update(k: KeyState, env: KeyEnv, now: real): Step
    requires MacroIgnoresKeypresses(env)
  {
    var d := DueEnd(k.when, k.whenIx, now);
    Replay(k.(whenIx := d), env, d - k.whenIx)
  }

  // ---------------------------------------------------------------------
  // Rewind: `backout_before`

  /** The rewind target: the previous event is not later than `now` (or there
      is none) and the next event is later than `now` (or there is none). */
  predicate IsBoundary(w: seq<real>, i: nat, now: real)
  {
    i <= |w| && (i == 0 || w[i - 1] <= now) && (i == |w| || w[i] > now)
  }

  /** The downward phase of the search in `backout_before`. */
  function SeekDown(w: seq<real>, i: nat, now: real): (r: nat)
    requires i < |w| && w[i] > now
    ensures r <= i && IsBoundary(w, r, now)
    decreases i
  {
    if i > 0 && w[i - 1] > now then SeekDown(w, i - 1, now) else i
  }

  /** The upward phase of the search in `backout_before`. */
  function SeekUp(w: seq<real>, i: nat, now: real): (r: nat)
    requires 1 <= i <= |w| && w[i - 1] <= now
    ensures i <= r && IsBoundary(w, r, now)
    decreases |w| - i
  {
    if i < |w| && w[i] <= now then SeekUp(w, i + 1, now) else i
  }

  /** The search loop of `backout_before`: from the cursor, step down while the
      previous event is in the future, else step up while the next event is
      due. Once it has moved one way it never turns back, so it ends whether or
      not `w` is sorted. A cursor past the end stays where it is. */
  function SeekBoundary(w: seq<real>, i: nat, now: real): (r: nat)
    ensures i <= |w| ==> IsBoundary(w, r, now)
    ensures i > |w| ==> r == i
  {
    if 0 < i <= |w| && w[i - 1] > now then SeekDown(w, i - 1, now)
    else if i < |w| && w[i] <= now then SeekUp(w, i + 1, now)
    else i
  }

  /** `backout_before(now)`: move the cursor to the rewind target and, instead
      of toggling once per skipped event, toggle once if their number is odd.
      The cursor is written last, so a fault leaves it where it was. Python's
      `n % 2` and Dafny's agree on negative `n` (both give 1 for odd `n`). */
  function BackoutBefore(k: KeyState, env: KeyEnv, now: real): Step
    requires MacroIgnoresKeypresses(env)
  {
    BackoutTo(k, env, SeekBoundary(k.when, k.whenIx, now))
  }

  /** The cursor moves to `j`; the key toggles once on the way when an odd
      number of events lies in between. */
  function BackoutTo(k: KeyState, env: KeyEnv, j: nat): Step
    requires MacroIgnoresKeypresses(env)
  {
    if Odd(k.whenIx - j) then
      var s := ToggleOnce(k, env);
      if s.faulted then s else Step(s.key.(whenIx := j), s.effects, false)
    else Step(k.(whenIx := j), [], false)
  }

  /** `when.clear()` followed by `real_up()`, as a queue reset does to every
      key. The cursor is NOT reset. */
  function ClearAndRelease(k: KeyState, env: KeyEnv): (r: Step)
    requires MacroIgnoresKeypresses(env)
    ensures !r.key.isReallyDown
    ensures r.faulted <==> k.isReallyDown && env.recordingMode && k.whenIx != 0
    ensures !(k.isReallyDown && env.recordingMode) ==> r.key.when == [] && r.key.whenIx == k.whenIx && r.effects == (if k.isReallyDown && k.noteOn then [NoteOff(k.pitch)] else [])
  {
    RealUp(k.(when := []), env, false)
  }
}
