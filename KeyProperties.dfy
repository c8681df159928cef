/** What the key operations of module KeyModel guarantee: every due event is
    consumed in one update, toggles follow the parity of the consumed events,
    a rewind lands on the unique boundary of a sorted timeline with a single
    corrective toggle, and the cursor/expected-state parity is kept. */
module KeyProperties {
  import opened Wrappers
  import opened KeyModel

  /** `n` copies of `x`. */
  function Repeat(x: real, n: nat): (r: seq<real>)
    ensures |r| == n && forall i :: 0 <= i < n ==> r[i] == x
  {
    seq(n, _ => x)
  }

  /** One more `x` before `n` of them is `n + 1` of them. */
  lemma AppendRepeat(w: seq<real>, x: real, n: nat)
    ensures w + [x] + Repeat(x, n) == w + Repeat(x, n + 1)
  {
    var a, b := w + [x] + Repeat(x, n), w + Repeat(x, n + 1);
    assert |a| == |b|;
    forall i | 0 <= i < |a|
      ensures a[i] == b[i]
    {
      if i < |w| {
        assert a[i] == w[i] == b[i];
      }
    }
  }

  predicate Ascending(w: seq<real>)
  {
    forall a, b :: 0 <= a < b < |w| ==> w[a] <= w[b]
  }

  /** The expected state agrees with the parity of the cursor: an even number
      of consumed toggles means "up", as when replaying from the start. */
  predicate InSync(k: KeyState)
  {
    k.shouldBeDown == Odd(k.whenIx)
  }

  // ---------------------------------------------------------------------
  // The toggle loop

  /** Without replay to the real output, `n` consumed events only flip the
      expected state `n` times. */
  lemma {:induction false} ReplayWithoutOutput(k: KeyState, env: KeyEnv, n: nat)
    requires MacroIgnoresKeypresses(env) && !env.recordingPlays
    ensures Replay(k, env, n) == Step(k.(shouldBeDown := k.shouldBeDown != Odd(n)), [], false)
    decreases n
  {
    if n > 0 {
      ReplayWithoutOutput(FakeToggle(k), env, n - 1);
    }
  }

  /** With replay to the real output but not recording, `n` consumed events
      flip both the expected and the real state `n` times and leave the
      timeline alone. */
  lemma {:induction false} ReplayOutsideRecording(k: KeyState, env: KeyEnv, n: nat)
    requires MacroIgnoresKeypresses(env) && env.recordingPlays && !env.recordingMode
    ensures var r := Replay(k, env, n);
      && !r.faulted
      && r.key.shouldBeDown == (k.shouldBeDown != Odd(n))
      && r.key.isReallyDown == (k.isReallyDown != Odd(n))
      && r.key.when == k.when && r.key.whenIx == k.whenIx
      && r.key.pitch == k.pitch && r.key.letter == k.letter
    decreases n
  {
    if n > 0 {
      ReplayOutsideRecording(ToggleOnce(k, env).key, env, n - 1);
    }
  }

  /** One consumed event while recording with replay on. */
  lemma ToggleOnceWhileRecording(k: KeyState, env: KeyEnv)
    requires MacroIgnoresKeypresses(env) && env.recordingPlays && env.recordingMode
    ensures var s := ToggleOnce(k, env);
      && (s.faulted <==> k.whenIx != |k.when|)
      && s.key.shouldBeDown != k.shouldBeDown
      && (s.faulted ==> s.key.when == k.when)
      && (!s.faulted ==>
            s.key.isReallyDown != k.isReallyDown
            && s.key.when == k.when + [env.now] && s.key.whenIx == |s.key.when|)
      && s.key.pitch == k.pitch && s.key.letter == k.letter
  {
  }

  /** Recording with replay on: the first real toggle faults unless the cursor
      is at the tail; after that every toggle appends `now` and the cursor
      stays at the tail. */
  lemma ReplayWhileRecording(k: KeyState, env: KeyEnv, n: nat)
    requires MacroIgnoresKeypresses(env) && env.recordingPlays && env.recordingMode && n > 0
    ensures var r := Replay(k, env, n);
      && (r.faulted <==> k.whenIx != |k.when|)
      && (r.faulted ==> r.key.shouldBeDown != k.shouldBeDown && r.key.when == k.when)
      && (!r.faulted ==>
            && r.key.shouldBeDown == (k.shouldBeDown != Odd(n))
            && r.key.isReallyDown == (k.isReallyDown != Odd(n))
            && r.key.when == k.when + Repeat(env.now, n)
            && r.key.whenIx == |r.key.when|)
      && r.key.pitch == k.pitch && r.key.letter == k.letter
  {
    RecordingTimeline(k, env, n);
    RecordingParity(k, env, n);
  }

  /** The timeline half of ReplayWhileRecording. */
  lemma {:induction false} RecordingTimeline(k: KeyState, env: KeyEnv, n: nat)
    requires MacroIgnoresKeypresses(env) && env.recordingPlays && env.recordingMode && n > 0
    ensures var r := Replay(k, env, n);
      && (r.faulted <==> k.whenIx != |k.when|)
      && (r.faulted ==> r.key.when == k.when)
      && (!r.faulted ==> r.key.when == k.when + Repeat(env.now, n) && r.key.whenIx == |r.key.when|)
      && r.key.pitch == k.pitch && r.key.letter == k.letter
    decreases n
  {
    var s := ToggleOnce(k, env);
    ToggleOnceWhileRecording(k, env);
    if !s.faulted {
      if n == 1 {
        assert [env.now] == Repeat(env.now, 1);
      } else {
        RecordingTimeline(s.key, env, n - 1);
        AppendRepeat(k.when, env.now, n - 1);
      }
    }
  }

  /** The expected and real states half of ReplayWhileRecording. */
  lemma {:induction false} RecordingParity(k: KeyState, env: KeyEnv, n: nat)
    requires MacroIgnoresKeypresses(env) && env.recordingPlays && env.recordingMode && n > 0
    ensures var r := Replay(k, env, n);
      && (r.faulted ==> r.key.shouldBeDown != k.shouldBeDown)
      && (!r.faulted ==>
            r.key.shouldBeDown == (k.shouldBeDown != Odd(n))
            && r.key.isReallyDown == (k.isReallyDown != Odd(n)))
    decreases n
  {
    var s := ToggleOnce(k, env);
    ToggleOnceWhileRecording(k, env);
    if !s.faulted && n > 1 {
      RecordingTimeline(s.key, env, n - 1);
      RecordingParity(s.key, env, n - 1);
      assert Odd(n) <==> !Odd(n - 1);
    }
  }

  /** The three cases together: only recording can fault, on the first
      toggle, when the cursor is not at the tail. */
  lemma ReplayFacts(k: KeyState, env: KeyEnv, n: nat)
    requires MacroIgnoresKeypresses(env)
    ensures var r := Replay(k, env, n);
      && (r.faulted <==> env.recordingPlays && env.recordingMode && n > 0 && k.whenIx != |k.when|)
      && (!r.faulted ==> r.key.shouldBeDown == (k.shouldBeDown != Odd(n)))
      && (!env.recordingPlays ==> r.key == k.(shouldBeDown := k.shouldBeDown != Odd(n)) && r.effects == [])
      && (!(env.recordingPlays && env.recordingMode && n > 0) ==>
            r.key.when == k.when && r.key.whenIx == k.whenIx)
      && (env.recordingPlays && env.recordingMode && n > 0 && !r.faulted ==>
            r.key.when == k.when + Repeat(env.now, n) && r.key.whenIx == |r.key.when|)
  {
    if !env.recordingPlays {
      ReplayWithoutOutput(k, env, n);
    } else if !env.recordingMode {
      ReplayOutsideRecording(k, env, n);
    } else if n > 0 {
      ReplayWhileRecording(k, env, n);
    }
  }

  // ---------------------------------------------------------------------
  // `update`

  /** After `update(now)` returns normally, the next event is in the future or
      there is none: no due event is left behind. The expected state has
      flipped iff an odd number of events was consumed; without replay to the
      real output, nothing else changes and nothing is sent. */
  lemma UpdateConsumesAllDue(k: KeyState, env: KeyEnv, now: real)
    requires MacroIgnoresKeypresses(env)
    ensures var r := Update(k, env, now);
            var d := DueEnd(k.when, k.whenIx, now);
      && (!r.faulted ==> Peek(r.key).None? || Peek(r.key).value > now)
      && (!r.faulted ==> r.key.shouldBeDown == (k.shouldBeDown != Odd(d - k.whenIx)))
      && (r.faulted <==> env.recordingPlays && env.recordingMode && d > k.whenIx && d != |k.when|)
      && (!env.recordingPlays ==>
            r.effects == [] && r.key == k.(whenIx := d, shouldBeDown := k.shouldBeDown != Odd(d - k.whenIx)))
  {
    var d := DueEnd(k.when, k.whenIx, now);
    ReplayFacts(k.(whenIx := d), env, d - k.whenIx);
  }

  /** Away from recording-with-replay, `update` keeps the cursor within the
      timeline and the expected state in step with the cursor's parity. */
  lemma UpdateKeepsSync(k: KeyState, env: KeyEnv, now: real)
    requires MacroIgnoresKeypresses(env)
    requires !(env.recordingPlays && env.recordingMode)
    requires InSync(k) && k.whenIx <= |k.when|
    ensures var r := Update(k, env, now);
      !r.faulted && InSync(r.key) && r.key.whenIx <= |r.key.when| && r.key.when == k.when
  {
    var d := DueEnd(k.when, k.whenIx, now);
    ReplayFacts(k.(whenIx := d), env, d - k.whenIx);
  }

  // ---------------------------------------------------------------------
  // `backout_before`

  /** On a sorted timeline there is exactly one boundary for a given time. */
  lemma BoundaryUnique(w: seq<real>, a: nat, b: nat, now: real)
    requires Ascending(w) && IsBoundary(w, a, now) && IsBoundary(w, b, now)
    ensures a == b
  {
  }

  /** On a sorted timeline the rewind lands, from any cursor within it, where a
      forward consume from the start would stop: just after the last event not
      later than `now`. */
  lemma SeekSorted(w: seq<real>, i: nat, now: real)
    requires Ascending(w) && i <= |w|
    ensures SeekBoundary(w, i, now) == DueEnd(w, 0, now)
  {
    BoundaryUnique(w, SeekBoundary(w, i, now), DueEnd(w, 0, now), now);
  }

  /** A rewind toggles at most once: when the number of skipped events is odd.
      Wherever it lands it keeps the expected state in step with the cursor,
      so on a sorted timeline the key ends exactly as a replay from the start
      up to `now` would leave it. */
  lemma BackoutReplaysFromStart(k: KeyState, env: KeyEnv, now: real)
    requires MacroIgnoresKeypresses(env)
    requires InSync(k) && k.whenIx <= |k.when|
    ensures var r := BackoutBefore(k, env, now);
            var j := SeekBoundary(k.when, k.whenIx, now);
      && (!r.faulted ==> r.key.whenIx == j && InSync(r.key) && IsBoundary(k.when, j, now))
      && (!r.faulted ==> (r.key.shouldBeDown != k.shouldBeDown <==> Odd(k.whenIx - j)))
      && (Ascending(k.when) && !r.faulted ==>
            r.key.whenIx == DueEnd(k.when, 0, now) && r.key.shouldBeDown == Odd(DueEnd(k.when, 0, now)))
      && (r.faulted ==> env.recordingPlays && env.recordingMode && Odd(k.whenIx - j))
  {
    var j := SeekBoundary(k.when, k.whenIx, now);
    BackoutToFacts(k, env, j);
    ParityOfDifference(k.whenIx, j);
    if Ascending(k.when) {
      SeekSorted(k.when, k.whenIx, now);
    }
  }

  /** Moving the cursor to `j` flips the expected state exactly when an odd
      number of events lies in between, and can fault only then, while
      recording with replay on. */
  lemma BackoutToFacts(k: KeyState, env: KeyEnv, j: nat)
    requires MacroIgnoresKeypresses(env)
    ensures var r := BackoutTo(k, env, j);
      && (!r.faulted ==> r.key.whenIx == j && (r.key.shouldBeDown != k.shouldBeDown <==> Odd(k.whenIx - j)))
      && (r.faulted ==> env.recordingPlays && env.recordingMode && Odd(k.whenIx - j))
  {
    if Odd(k.whenIx - j) {
      var s := ToggleOnce(k, env);
      ReplayFacts(k, env, 1);
      assert Replay(k, env, 1).faulted == s.faulted;
      assert !s.faulted ==> Replay(k, env, 1).key == s.key;
      assert BackoutTo(k, env, j) == if s.faulted then s else Step(s.key.(whenIx := j), s.effects, false);
    }
  }

  /** Moving the cursor to where it already is does nothing. */
  lemma BackoutToCursor(k: KeyState, env: KeyEnv)
    requires MacroIgnoresKeypresses(env)
    ensures BackoutTo(k, env, k.whenIx) == Step(k, [], false)
  {
    assert !Odd(k.whenIx - k.whenIx);
  }

  lemma ParityOfDifference(a: int, b: int)
    ensures Odd(b) <==> (Odd(a) != Odd(a - b))
  {
  }

  /** A second rewind to the same time changes nothing, provided the first did
      not grow the timeline. */
  lemma BackoutIdempotent(k: KeyState, env: KeyEnv, now: real)
    requires MacroIgnoresKeypresses(env)
    ensures var r := BackoutBefore(k, env, now);
      !r.faulted && r.key.when == k.when ==> BackoutBefore(r.key, env, now) == Step(r.key, [], false)
  {
    var r := BackoutBefore(k, env, now);
    if !r.faulted && r.key.when == k.when {
      var j := SeekBoundary(k.when, k.whenIx, now);
      BackoutToFacts(k, env, j);
      assert SeekBoundary(r.key.when, r.key.whenIx, now) == r.key.whenIx;
      BackoutToCursor(r.key, env);
    }
  }

  /** While recording with replay on, a rewind over an odd number of events
      from the tail does not only move the cursor: the corrective real toggle
      appends `now` to the timeline, after events that may lie later than it. */
  lemma BackoutWhileRecordingAppends(k: KeyState, env: KeyEnv, now: real)
    requires MacroIgnoresKeypresses(env)
    requires env.recordingPlays && env.recordingMode && k.whenIx == |k.when|
    requires Odd(k.whenIx - SeekBoundary(k.when, k.whenIx, now))
    ensures var r := BackoutBefore(k, env, now);
      !r.faulted && r.key.when == k.when + [env.now] && r.key.whenIx < |r.key.when|
  {
  }

  /** The worked example: events at 2, 5 and 9. Updating to 6 consumes two
      events (an even number: the key is expected up again); rewinding to 1
      skips both back, so the cursor returns to 0 with no corrective toggle. */
  lemma RewindExample()
    ensures var env := KeyEnv(false, true, false, false, true, false, 0.0);
            var k := Fresh(60, 'A').(when := [2.0, 5.0, 9.0]);
            var u := Update(k, env, 6.0);
            var b := BackoutBefore(u.key, env, 1.0);
      && u.key.whenIx == 2 && !u.key.shouldBeDown
      && b.key.whenIx == 0 && !b.key.shouldBeDown && b.effects == []
  {
    var env := KeyEnv(false, true, false, false, true, false, 0.0);
    var k := Fresh(60, 'A').(when := [2.0, 5.0, 9.0]);
    UpdateConsumesAllDue(k, env, 6.0);
    assert DueEnd(k.when, 0, 6.0) == 2;
  }

  /** The same example under the default settings, which replay scheduled
      events to the real output (`recording_plays`) and send macro output to
      the unfocused window: updating to 6 also plays the note and types its
      letter, then ends it; rewinding to 1 again sends nothing, and the key
      stays up. */
  lemma RewindExampleReplay()
    ensures var env := KeyEnv(true, true, true, true, false, false, 0.0);
            var k := Fresh(60, 'A').(when := [2.0, 5.0, 9.0]);
            var u := Update(k, env, 6.0);
            var b := BackoutBefore(u.key, env, 1.0);
      && !u.faulted && u.key.whenIx == 2 && !u.key.shouldBeDown && !u.key.isReallyDown
      && u.effects == [NoteOn(60), MacroKeyDown('a'), MacroKeyUp('a'), NoteOff(60)]
      && !b.faulted && b.key.whenIx == 0 && !b.key.shouldBeDown && !b.key.isReallyDown && b.effects == []
  {
    var env := KeyEnv(true, true, true, true, false, false, 0.0);
    var k := Fresh(60, 'A').(when := [2.0, 5.0, 9.0]);
    UpdateConsumesAllDue(k, env, 6.0);
    assert DueEnd(k.when, 0, 6.0) == 2;
  }

  // ---------------------------------------------------------------------
  // Queue reset

  /** A queue reset empties the timeline but keeps the cursor: after a new
      piece is appended, its first `whenIx` events are never offered by `peek`. */
  lemma ClearKeepsCursor(k: KeyState, env: KeyEnv, piece: seq<real>)
    requires MacroIgnoresKeypresses(env) && !env.recordingMode
    ensures var r := ClearAndRelease(k, env);
      && r.key.when == [] && r.key.whenIx == k.whenIx && !r.key.isReallyDown
      && Peek(r.key.(when := piece)) == (if k.whenIx < |piece| then Some(piece[k.whenIx]) else None)
  {
  }
}
