/** Class `KeySquare` of render_notes.py: one playable key whose fields the
    renderer and its own methods update in place. Every method is proved to
    leave the key in the state the matching function of module KeyModel
    computes, and to issue the same side effects in the same order. */
module Keys {
  import opened Wrappers
  import opened Pitches
  import opened KeyModel

  class KeySquare {
    const pitch: int
    const letter: char
    var when: seq<real>
    var whenIx: nat
    var isReallyDown: bool
    var keyIsPressed: bool
    var shouldBeDown: bool
    var noteOn: bool

    /** The key as a value. */
    function State(): KeyState
      reads this
    {
      KeyState(pitch, letter, when, whenIx, isReallyDown, keyIsPressed, shouldBeDown, noteOn)
    }

    /** The constructor asserts that the pitch has a key letter and a note
        name; only the first is a requirement, the second follows from it. */
    constructor (pitch: int)
      requires HasKey(pitch)
      ensures State() == Fresh(pitch, KeyLetter(pitch))
    {
      KeysAreExactlyNaturals(pitch);
      assert MidiPitchToName(pitch).Some?;
      this.pitch := pitch;
      this.letter := KeyLetter(pitch);
      when := [];
      whenIx := 0;
      isReallyDown := false;
      keyIsPressed := false;
      shouldBeDown := false;
      noteOn := false;
    }

    /** `pop`: returns what `peek` shows and advances past it, if anything. */
    method Pop() returns (val: Option<real>)
      modifies this
      ensures val == Peek(old(State()))
      ensures State() == KeyModel.Pop(old(State()))
    {
      val := Peek(State());
      if whenIx < |when| {
        whenIx := whenIx + 1;
      }
    }

    method FakeToggle()
      modifies this
      ensures State() == KeyModel.FakeToggle(old(State()))
    {
      shouldBeDown := !shouldBeDown;
    }

    method RealDown(env: KeyEnv, wasKeypress: bool) returns (effects: seq<Effect>, faulted: bool)
      requires MacroIgnoresKeypresses(env)
      modifies this
      ensures Step(State(), effects, faulted) == KeyModel.RealDown(old(State()), env, wasKeypress)
    {
      effects, faulted := [], false;
      if wasKeypress {
        keyIsPressed := true;
      }
      if !isReallyDown {
        isReallyDown := true;
        if env.playSounds {
          effects := effects + [NoteOn(pitch)];
          noteOn := true;
        }
        if env.macroOutput && !wasKeypress && !env.windowFocused {
          assert env.ignoreKeypresses;
          keyIsPressed := true;
          effects := effects + [MacroKeyDown(Lower(letter)), MacroKeyUp(Lower(letter))];
        }
        if env.recordingMode {
          if whenIx != |when| {
            faulted := true;
            return;
          }
          when := when + [env.now];
          whenIx := whenIx + 1;
        }
      }
    }

    method RealUp(env: KeyEnv, wasKeypress: bool) returns (effects: seq<Effect>, faulted: bool)
      requires MacroIgnoresKeypresses(env)
      modifies this
      ensures Step(State(), effects, faulted) == KeyModel.RealUp(old(State()), env, wasKeypress)
    {
      effects, faulted := [], false;
      if wasKeypress {
        keyIsPressed := false;
      }
      if isReallyDown {
        isReallyDown := false;
        if noteOn {
          effects := effects + [NoteOff(pitch)];
        }
        if env.macroOutput && !wasKeypress && keyIsPressed {
          assert env.ignoreKeypresses;
          keyIsPressed := false;
        }
        if env.recordingMode {
          if whenIx != |when| {
            faulted := true;
            return;
          }
          when := when + [env.now];
          whenIx := whenIx + 1;
        }
      }
    }

    method RealToggle(env: KeyEnv, wasKeypress: bool) returns (effects: seq<Effect>, faulted: bool)
      requires MacroIgnoresKeypresses(env)
      modifies this
      ensures Step(State(), effects, faulted) == KeyModel.RealToggle(old(State()), env, wasKeypress)
    {
      if isReallyDown {
        effects, faulted := RealUp(env, wasKeypress);
      } else {
        effects, faulted := RealDown(env, wasKeypress);
      }
    }

    /** A queue reset as the renderer performs it on each key: `when.clear()`
        then `real_up()`. */
    method ClearAndRelease(env: KeyEnv) returns (effects: seq<Effect>, faulted: bool)
      requires MacroIgnoresKeypresses(env)
      modifies this
      ensures Step(State(), effects, faulted) == KeyModel.ClearAndRelease(old(State()), env)
    {
      when := [];
      effects, faulted := RealUp(env, false);
    }

    /** `update(now)`: a loop that pops every due event, then a loop that
        toggles once per popped event. A fault ends the call. */
    method Update(env: KeyEnv, now: real) returns (effects: seq<Effect>, faulted: bool)
      requires MacroIgnoresKeypresses(env)
      modifies this
      ensures Step(State(), effects, faulted) == KeyModel.Update(old(State()), env, now)
    {
      var nToggles := PopDue(now);
      effects, faulted := ToggleTimes(env, nToggles);
    }

    /** The consume loop of `update`: pop while the next event is due; the
        result is the number of events popped. */
    method PopDue(now: real) returns (count: nat)
      modifies this
      ensures State() == old(State()).(whenIx := DueEnd(old(when), old(whenIx), now))
      ensures count == DueEnd(old(when), old(whenIx), now) - old(whenIx)
    {
      count := 0;
      while Peek(State()).Some? && Peek(State()).value <= now
        invariant State() == old(State()).(whenIx := old(whenIx) + count)
        invariant DueEnd(when, whenIx, now) == DueEnd(old(when), old(whenIx), now)
        decreases |when| - whenIx
      {
        var _ := Pop();
        count := count + 1;
      }
      assert DueEnd(when, whenIx, now) == whenIx;
    }

    /** The toggle loop of `update`: `n` times a fake toggle and, when
        scheduled events are replayed to the real output, a real toggle. */
    method ToggleTimes(env: KeyEnv, count: nat) returns (effects: seq<Effect>, faulted: bool)
      requires MacroIgnoresKeypresses(env)
      modifies this
      ensures Step(State(), effects, faulted) == Replay(old(State()), env, count)
    {
      ghost var total := Replay(State(), env, count);
      effects, faulted := [], false;
      var n := 0;
      while n < count
        invariant n <= count
        invariant total.key == Replay(State(), env, count - n).key
        invariant total.effects == effects + Replay(State(), env, count - n).effects
        invariant total.faulted == Replay(State(), env, count - n).faulted
      {
        ghost var before := State();
        ghost var step := ToggleOnce(before, env);
        ghost var rest := Replay(step.key, env, count - n - 1);
        assert Replay(before, env, count - n) ==
          if step.faulted then step else Step(rest.key, step.effects + rest.effects, rest.faulted);
        FakeToggle();
        if env.recordingPlays {
          var e, f := RealToggle(env, false);
          effects := effects + e;
          if f {
            faulted := true;
            return;
          }
        }
        assert State() == step.key;
        assert total.effects == effects + rest.effects;
        n := n + 1;
      }
    }

    /** The search loop of `backout_before` exactly as written: one loop that
        steps down while the previous event is in the future and up while the
        next one is due. It reads the key and changes nothing. */
    method SeekTarget(now: real) returns (newWhenIx: int)
      ensures newWhenIx == SeekBoundary(when, whenIx, now)
    {
      var originalWhenIx := whenIx;
      newWhenIx := originalWhenIx;
      // The ghost phase records which way the search has moved: 0 not yet,
      // -1 down, 1 up. It never changes direction, which is why it ends.
      ghost var phase := 0;
      while true
        invariant phase == 0 ==> newWhenIx == originalWhenIx
        invariant phase == -1 ==>
          0 <= newWhenIx < |when| && when[newWhenIx] > now &&
          SeekBoundary(when, originalWhenIx, now) == SeekDown(when, newWhenIx, now)
        invariant phase == 1 ==>
          1 <= newWhenIx <= |when| && when[newWhenIx - 1] <= now &&
          SeekBoundary(when, originalWhenIx, now) == SeekUp(when, newWhenIx, now)
        invariant phase in {-1, 0, 1}
        decreases if phase == 0 then 2 else if phase == -1 then 1 else 0,
          if phase == -1 then newWhenIx else if phase == 1 then |when| - newWhenIx else 0
      {
        var prevIdx := newWhenIx - 1;
        var prevInPast := if prevIdx < 0 || prevIdx >= |when| then true else when[prevIdx] <= now;
        if !prevInPast {
          newWhenIx := newWhenIx - 1;
          phase := -1;
          continue;
        }
        var nextInFuture := if newWhenIx >= |when| then true else when[newWhenIx] > now;
        if !nextInFuture {
          newWhenIx := newWhenIx + 1;
          phase := 1;
          continue;
        }
        break;
      }
    }

    /** `backout_before(now)`: the search, then a single toggle when the
        number of skipped events is odd, then the new cursor. */
    method BackoutBefore(env: KeyEnv, now: real) returns (effects: seq<Effect>, faulted: bool)
      requires MacroIgnoresKeypresses(env)
      modifies this
      ensures Step(State(), effects, faulted) == KeyModel.BackoutBefore(old(State()), env, now)
    {
      var newWhenIx := SeekTarget(now);
      effects, faulted := BackoutTo(env, newWhenIx);
    }

    /** The end of `backout_before`: one toggle when an odd number of events
        lies between the cursor and `newWhenIx`, then the cursor moves. */
    method BackoutTo(env: KeyEnv, newWhenIx: nat) returns (effects: seq<Effect>, faulted: bool)
      requires MacroIgnoresKeypresses(env)
      modifies this
      ensures Step(State(), effects, faulted) == KeyModel.BackoutTo(old(State()), env, newWhenIx)
    {
      var nToggles := whenIx - newWhenIx;
      effects, faulted := [], false;
      if nToggles % 2 == 1 {
        ghost var once := ToggleOnce(State(), env);
        FakeToggle();
        if env.recordingPlays {
          effects, faulted := RealToggle(env, false);
        }
        assert Step(State(), effects, faulted) == once;
        if faulted {
          return;
        }
      }
      whenIx := newWhenIx;
    }
  }
}
