/** Properties of the renderer model: what a pass over the keys does to
    each key, what the clock and the settings keys do, how the event loop
    ends, what `enqueue_file` routes where, and two quirks of `update` as
    written (two seeks in one frame, the P key acting on press and on
    release). */
module RendererProperties {
  import opened Wrappers
  import opened Pitches
  import opened Notes
  import opened KeyModel
  import opened KeyProperties
  import opened RendererModel
  import Transpose

  /** No pitch occurs twice in `order`. */
  predicate Distinct(order: seq<int>)
  {
    forall i, j :: 0 <= i < j < |order| ==> order[i] != order[j]
  }

  // ---------------------------------------------------------------------
  // Passes over the keys

  /** A pass that ends normally has applied the operation once to every key
      whose pitch is in `order`, left the other keys alone, and appended to
      the effects already logged. */
  lemma {:induction false} SweepPointwise(ks: map<int, KeyState>, order: seq<int>, op: KeyOp, env: KeyEnv, log: seq<Effect>)
    requires MacroIgnoresKeypresses(env) && Distinct(order)
    ensures var r := SweepKeys(ks, order, op, env, log);
      && log <= r.effects
      && (!r.faulted ==> forall p :: p in ks ==> r.keys[p] == if p in order then Apply(op, ks[p], env).key else ks[p])
    decreases |order|
  {
    if order != [] {
      var tail := order[1..];
      assert Distinct(tail) by {
        forall i, j | 0 <= i < j < |tail|
          ensures tail[i] != tail[j]
        {
          assert tail[i] == order[i + 1] && tail[j] == order[j + 1];
        }
      }
      assert order[0] !in tail by {
        forall i | 0 <= i < |tail|
          ensures tail[i] != order[0]
        {
          assert tail[i] == order[i + 1];
        }
      }
      assert forall p :: p in order <==> p == order[0] || p in tail by {
        assert order == [order[0]] + tail;
      }
      if order[0] !in ks {
        SweepPointwise(ks, tail, op, env, log);
      } else {
        var s := Apply(op, ks[order[0]], env);
        var ks' := ks[order[0] := s.key];
        if !s.faulted {
          SweepPointwise(ks', tail, op, env, log + s.effects);
        }
      }
    }
  }

  /** A pass that ends normally over a valid renderer's keys has applied the
      operation to every one of its keys. */
  lemma SweepAllKeys(s: RState, op: KeyOp, log: seq<Effect>)
    requires Valid(s)
    ensures var r := SweepKeys(s.keys, s.order, op, Env(s), log);
      !r.faulted ==> forall p :: p in s.keys ==> r.keys[p] == Apply(op, s.keys[p], Env(s)).key
  {
    assert Distinct(s.order);
    SweepPointwise(s.keys, s.order, op, Env(s), log);
  }

  /** A key code no key square carries presses or releases nothing: the
      pass changes no key and sends nothing. */
  lemma {:induction false} SweepUnmatched(ks: map<int, KeyState>, order: seq<int>, code: KeyCode, release: bool, env: KeyEnv, log: seq<Effect>)
    requires MacroIgnoresKeypresses(env)
    requires forall p :: p in ks ==> CodeOf(ks[p]) != code
    ensures SweepKeys(ks, order, if release then ReleaseOp(code) else PressOp(code), env, log) == Sweep(ks, log, false)
    decreases |order|
  {
    if order != [] {
      if order[0] in ks {
        var op := if release then ReleaseOp(code) else PressOp(code);
        var q := order[0];
        assert CodeOf(ks[q]) != code;
        assert Apply(op, ks[order[0]], env) == Step(ks[order[0]], [], false);
        assert ks[order[0] := ks[order[0]]] == ks;
        assert log + [] == log;
      }
      SweepUnmatched(ks, order[1..], code, release, env, log);
      assert SweepKeys(ks, order, if release then ReleaseOp(code) else PressOp(code), env, log)
          == SweepKeys(ks, order[1..], if release then ReleaseOp(code) else PressOp(code), env, log);
    }
  }

  /** After the keys' `update(now)` has run without an exception, no key has
      a due event left: each one's next event, if any, lies in the future. */
  lemma UpdateLeavesNothingDue(s: RState, prevPlay: Option<bool>, log: seq<Effect>)
    requires Valid(s)
    ensures var r := UpdateKeys(s, prevPlay, log);
      !r.faulted ==> forall p :: p in r.state.keys ==> Peek(r.state.keys[p]).None? || Peek(r.state.keys[p]).value > s.now
  {
    var sw := SweepKeys(s.keys, s.order, UpdateOp, Env(s), log);
    SweepAllKeys(s, UpdateOp, log);
    if !sw.faulted {
      forall p | p in s.keys
        ensures Peek(sw.keys[p]).None? || Peek(sw.keys[p]).value > s.now
      {
        UpdateConsumesAllDue(s.keys[p], Env(s), s.now);
        UpdateFaultsOnlyInPlace(s.keys[p], Env(s));
      }
    }
  }

  /** A key whose `update` ends normally is the one `Apply(UpdateOp)` returns. */
  lemma UpdateFaultsOnlyInPlace(k: KeyState, env: KeyEnv)
    requires MacroIgnoresKeypresses(env)
    ensures Apply(UpdateOp, k, env) == Update(k, env, env.now)
  {
  }

  /** A pass over the keys keeps every key's pitch and letter. */
  lemma {:induction false} SweepKeepsIdentity(s: RState, ks: map<int, KeyState>, order: seq<int>, op: KeyOp, env: KeyEnv, log: seq<Effect>)
    requires MacroIgnoresKeypresses(env) && SameKeys(s, ks)
    ensures SameKeys(s, SweepKeys(ks, order, op, env, log).keys)
    decreases |order|
  {
    if order != [] && order[0] in ks {
      var st := Apply(op, ks[order[0]], env);
      if !st.faulted {
        SweepKeepsIdentity(s, ks[order[0] := st.key], order[1..], op, env, log + st.effects);
      }
    } else if order != [] {
      SweepKeepsIdentity(s, ks, order[1..], op, env, log);
    }
  }

  /** The MIDI input keeps every key's pitch and letter. */
  lemma {:induction false} MidiKeepsIdentity(s: RState, ks: map<int, KeyState>, g: GameSettings, env: KeyEnv, pitches: seq<int>, log: seq<Effect>)
    requires MacroIgnoresKeypresses(env) && SameKeys(s, ks)
    ensures SameKeys(s, MidiToggles(ks, g, env, pitches, log).keys)
    decreases |pitches|
  {
    if pitches != [] {
      var tr := Transform(g, pitches[0]);
      if tr !in ks {
        MidiKeepsIdentity(s, ks, g, env, pitches[1..], log);
      } else {
        var st := RealToggle(ks[tr], env, false);
        if !st.faulted {
          MidiKeepsIdentity(s, ks[tr := st.key], g, env, pitches[1..], log + st.effects);
        }
      }
    }
  }

  /** A pass over a valid renderer's keys leaves it valid. */
  lemma SweepStaysValid(s: RState, op: KeyOp, log: seq<Effect>)
    requires Valid(s)
    ensures Valid(s.(keys := SweepKeys(s.keys, s.order, op, Env(s), log).keys))
  {
    SweepKeepsIdentity(s, s.keys, s.order, op, Env(s), log);
    SweptStaysValid(s, SweepKeys(s.keys, s.order, op, Env(s), log).keys);
  }

  /** Every event leaves the renderer valid: it keeps one key per pitch
      that owns a letter, each with its own pitch and letter. */
  lemma HandleEventStaysValid(s: RState, prevPlay: Option<bool>, ev: Event, log: seq<Effect>)
    requires Valid(s)
    ensures Valid(HandleEvent(s, prevPlay, ev, log).state)
  {
    match ev
    case KeyDown(code) => PressStaysValid(s, prevPlay, code, log);
    case KeyUp(code) => ReleaseStaysValid(s, prevPlay, code, log);
    case _ =>
  }

  lemma PressStaysValid(s: RState, prevPlay: Option<bool>, code: KeyCode, log: seq<Effect>)
    requires Valid(s)
    ensures Valid(PressKey(s, prevPlay, code, log).state)
  {
    var c := Command(s, prevPlay, code, log);
    CommandStaysValid(s, prevPlay, code, log);
    if !(c.stop || c.state.settings.ignoreKeypresses) {
      SweepStaysValid(c.state, PressOp(code), c.effects);
    }
  }

  lemma ReleaseStaysValid(s: RState, prevPlay: Option<bool>, code: KeyCode, log: seq<Effect>)
    requires Valid(s)
    ensures Valid(ReleaseKey(s, prevPlay, code, log).state)
  {
    if !s.settings.ignoreKeypresses {
      SweepStaysValid(s, ReleaseOp(code), log);
    }
  }

  lemma CommandStaysValid(s: RState, prevPlay: Option<bool>, code: KeyCode, log: seq<Effect>)
    requires Valid(s)
    ensures Valid(Command(s, prevPlay, code, log).state)
  {
    if code == ArrowLeft {
      assert Valid(Rewound(s));
      SweepStaysValid(Rewound(s), BackoutOp, log);
    }
  }

  /** The whole event loop leaves the renderer valid. */
  lemma {:induction false} HandleEventsStaysValid(s: RState, prevPlay: Option<bool>, events: seq<Event>, log: seq<Effect>)
    requires Valid(s)
    ensures Valid(HandleEvents(s, prevPlay, events, log).state)
    decreases |events|
  {
    if events != [] {
      var e := HandleEvent(s, prevPlay, events[0], log);
      HandleEventStaysValid(s, prevPlay, events[0], log);
      if !e.stop {
        HandleEventsStaysValid(e.state, e.prevPlay, events[1..], e.effects);
      }
    }
  }

  /** The end of a frame that raises nothing leaves the renderer valid and
      no key with a due event. */
  lemma EndFrameLeavesNothingDue(s: RState, prevPlay: Option<bool>, log: seq<Effect>, midiIn: seq<int>)
    requires Valid(s)
    ensures var f := EndFrame(s, prevPlay, log, midiIn);
      !f.faulted ==> Valid(f.state) && forall p :: p in f.state.keys ==>
        Peek(f.state.keys[p]).None? || Peek(f.state.keys[p]).value > f.state.now
  {
    var m := MidiToggles(s.keys, s.settings, Env(s), midiIn, log);
    MidiKeepsIdentity(s, s.keys, s.settings, Env(s), midiIn, log);
    var s1 := s.(keys := m.keys);
    SweptStaysValid(s, m.keys);
    if !m.faulted {
      UpdateLeavesNothingDue(s1, prevPlay, m.effects);
      SweepStaysValid(s1, UpdateOp, m.effects);
    }
  }

  /** A frame of `update` that raises nothing leaves the renderer valid and
      no key with a due event: each key's next event, if any, lies after
      the frame's final clock. */
  lemma FrameLeavesNothingDue(s: RState, wallTime: real, focused: bool, events: seq<Event>, midiIn: seq<int>)
    requires Valid(s)
    ensures var r := UpdateRenderer(s, wallTime, focused, events, midiIn);
      !r.faulted ==> Valid(r.state) && forall p :: p in r.state.keys ==>
        Peek(r.state.keys[p]).None? || Peek(r.state.keys[p]).value > r.state.now
  {
    var s0 := StartFrame(s, wallTime, focused);
    assert Valid(s0);
    var ev := HandleEvents(s0, None, events, []);
    HandleEventsStaysValid(s0, None, events, []);
    if !ev.faulted {
      EndFrameLeavesNothingDue(ev.state, ev.prevPlay, ev.effects, midiIn);
    }
  }

  // ---------------------------------------------------------------------
  // The clock and the settings keys

  /** The clock moves only on a frame after the first, while not paused and
      not held back by progression mode; it is scaled by the speed, and it
      never runs backwards when wall-clock time does not and the speed is
      positive. */
  lemma TickSpec(s: RState, wallTime: real)
    ensures var r := Tick(s, wallTime);
      && r == s.(now := r.now, lastUpdate := Some(wallTime))
      && (r.now != s.now ==> s.lastUpdate.Some? && !s.settings.paused && (!s.settings.progressionMode || RendererModel.OkayToProgress(s)))
      && (s.lastUpdate.Some? && !s.settings.paused && (!s.settings.progressionMode || RendererModel.OkayToProgress(s)) ==>
            r.now == s.now + (wallTime - s.lastUpdate.value) * s.settings.timescale)
      && (s.lastUpdate.Some? && wallTime >= s.lastUpdate.value && s.settings.timescale > 0.0 ==> r.now >= s.now)
  {
    if s.lastUpdate.Some? && wallTime >= s.lastUpdate.value && s.settings.timescale > 0.0 {
      assert (wallTime - s.lastUpdate.value) * s.settings.timescale >= 0.0;
    }
  }

  /** The speed keys: up adds a tenth, down takes a tenth away but never
      goes below a tenth, so a positive speed stays positive. */
  lemma AdjustSpeed(g: Settings, code: KeyCode)
    ensures code == ArrowUp ==> Adjust(g, code).timescale == g.timescale + 0.1
    ensures code == ArrowDown ==> Adjust(g, code).timescale >= 0.1
    ensures code == ArrowDown && g.timescale >= 0.2 ==> Adjust(g, code).timescale == g.timescale - 0.1
    ensures g.timescale > 0.0 ==> Adjust(g, code).timescale > 0.0
    ensures code != ArrowUp && code != ArrowDown ==> Adjust(g, code).timescale == g.timescale
  {
  }

  /** The pause keys 1 and P flip the pause and nothing else; 3 flips
      progression mode and nothing else. */
  lemma AdjustToggles(g: Settings, code: KeyCode)
    ensures code == Digit1 || code == LetterKey('p') ==> Adjust(g, code) == g.(paused := !g.paused)
    ensures code == Digit3 ==> Adjust(g, code) == g.(progressionMode := !g.progressionMode)
    ensures Adjust(g, code).paused != g.paused <==> code == Digit1 || code == LetterKey('p')
  {
  }

  // ---------------------------------------------------------------------
  // The event loop

  /** Events are handled one after another: once the loop has broken out,
      later events change nothing; otherwise the later events start from
      where the earlier ones left off. */
  lemma {:induction false} HandleEventsAppend(s: RState, prevPlay: Option<bool>, events: seq<Event>, more: seq<Event>, log: seq<Effect>)
    ensures var r := HandleEvents(s, prevPlay, events, log);
      HandleEvents(s, prevPlay, events + more, log) ==
        if r.stop then r else HandleEvents(r.state, r.prevPlay, more, r.effects)
    decreases |events|
  {
    if events != [] {
      var e := HandleEvent(s, prevPlay, events[0], log);
      assert (events + more)[0] == events[0];
      assert (events + more)[1..] == events[1..] + more;
      if !e.stop {
        assert HandleEvents(s, prevPlay, events, log) == HandleEvents(e.state, e.prevPlay, events[1..], e.effects);
        assert HandleEvents(s, prevPlay, events + more, log) == HandleEvents(e.state, e.prevPlay, events[1..] + more, e.effects);
        HandleEventsAppend(e.state, e.prevPlay, events[1..], more, e.effects);
      }
    } else {
      assert events + more == more;
    }
  }

  /** Closing the window or pressing Escape marks the renderer done and
      ends the loop: whatever follows in the queue is not looked at. */
  lemma QuitEndsLoop(s: RState, prevPlay: Option<bool>, quit: Event, rest: seq<Event>, log: seq<Effect>)
    requires quit == WindowClose || quit == KeyDown(Escape)
    ensures HandleEvents(s, prevPlay, [quit] + rest, log) == EventStep(s.(isDone := true), prevPlay, log, None, true, false)
  {
    HandleEventsAppend(s, prevPlay, [quit], rest, log);
  }

  /** The 0 key starts recording from the top at normal speed; pressed
      again it hands every key's timeline to `save` and ends the game. */
  lemma RecordThenSave(s: RState, prevPlay: Option<bool>, log: seq<Effect>)
    requires !s.recordingMode
    ensures var started := s.(recordingMode := true, now := 0.0, settings := s.settings.(timescale := 1.0));
      HandleEvents(s, prevPlay, [KeyDown(Digit0), KeyDown(Digit0)], log)
        == EventStep(started.(isDone := true), prevPlay, log, Some(DumpKeys(s.keys, s.order)), true, false)
  {
    var started := s.(recordingMode := true, now := 0.0, settings := s.settings.(timescale := 1.0));
    SweepUnmatched(started.keys, started.order, Digit0, false, Env(started), log);
    assert HandleEvent(s, prevPlay, KeyDown(Digit0), log) == EventStep(started, prevPlay, log, None, false, false);
    assert [KeyDown(Digit0), KeyDown(Digit0)][1..] == [KeyDown(Digit0)];
  }

  /** A seek saves the current `play_sounds` and mutes. */
  lemma SeekAhead(s: RState, prevPlay: Option<bool>, log: seq<Effect>)
    ensures HandleEvent(s, prevPlay, KeyDown(ArrowRight), log)
      == EventStep(s.(now := s.now + 15.0, settings := s.settings.(playSounds := false)),
                   Some(s.settings.playSounds), log, None, false, false)
  {
    var c := Command(s, prevPlay, ArrowRight, log);
    SweepUnmatched(c.state.keys, c.state.order, ArrowRight, false, Env(c.state), log);
  }

  /** One seek in a frame mutes the sounds for that frame only: restoring
      at the end of the frame gives back the setting from before. */
  lemma OneSeekRestores(s: RState, log: seq<Effect>)
    ensures var r := HandleEvents(s, None, [KeyDown(ArrowRight)], log);
      && !r.state.settings.playSounds
      && RestorePlay(r.state, r.prevPlay).settings == s.settings
  {
    SeekAhead(s, None, log);
  }

  /** Two seeks in one frame: the second saves the already muted setting,
      so the restore at the end of the frame leaves the sounds off for
      good, whatever they were before. */
  lemma TwoSeeksStayMuted(s: RState, log: seq<Effect>)
    ensures var r := HandleEvents(s, None, [KeyDown(ArrowRight), KeyDown(ArrowRight)], log);
      && r.state.now == s.now + 30.0
      && r.prevPlay == Some(false)
      && !RestorePlay(r.state, r.prevPlay).settings.playSounds
  {
    SeekAhead(s, None, log);
    var s1 := s.(now := s.now + 15.0, settings := s.settings.(playSounds := false));
    SeekAhead(s1, Some(s.settings.playSounds), log);
    assert [KeyDown(ArrowRight), KeyDown(ArrowRight)][1..] == [KeyDown(ArrowRight)];
  }

  /** The left arrow: the clock goes back fifteen seconds but not below
      zero, the sounds are muted with the old setting saved, and, if no key
      raises, every key is rewound to the new time. */
  lemma RewindSpec(s: RState, log: seq<Effect>)
    requires Valid(s)
    ensures var r := Rewind(s, log);
      && r.state.now >= 0.0
      && (s.now >= 15.0 ==> r.state.now == s.now - 15.0)
      && !r.state.settings.playSounds
      && r.prevPlay == Some(s.settings.playSounds)
      && r.stop == r.faulted
      && (!r.faulted ==> forall p :: p in s.keys ==>
            r.state.keys[p] == BackoutBefore(s.keys[p], Env(Rewound(s)), r.state.now).key)
  {
    var s0 := Rewound(s);
    assert Valid(s0);
    SweepAllKeys(s0, BackoutOp, log);
  }

  /** No key square of a valid renderer answers to P. */
  lemma NoSquareIsP(s: RState)
    requires Valid(s)
    ensures forall p :: p in s.keys ==> CodeOf(s.keys[p]) != LetterKey('p')
  {
    forall p | p in s.keys
      ensures CodeOf(s.keys[p]) != LetterKey('p')
    {
      KeyLetterIsCapitalNotP(p);
    }
  }

  /** Pressing P pauses or resumes the game, and nothing else: no key square
      carries P, so the press reaches no key whether or not keypresses are
      ignored. */
  lemma PressPToggles(s: RState, prevPlay: Option<bool>, log: seq<Effect>)
    requires Valid(s)
    ensures HandleEvent(s, prevPlay, KeyDown(LetterKey('p')), log)
      == EventStep(s.(settings := s.settings.(paused := !s.settings.paused)), prevPlay, log, None, false, false)
  {
    var s1 := s.(settings := s.settings.(paused := !s.settings.paused));
    assert Command(s, prevPlay, LetterKey('p'), log) == EventStep(s1, prevPlay, log, None, false, false);
    NoSquareIsP(s);
    SweepUnmatched(s1.keys, s1.order, LetterKey('p'), false, Env(s1), log);
    assert s1.(keys := s1.keys) == s1;
  }

  /** Releasing P pauses or resumes the game too, and changes no key. */
  lemma ReleasePToggles(s: RState, prevPlay: Option<bool>, log: seq<Effect>)
    requires Valid(s)
    ensures HandleEvent(s, prevPlay, KeyUp(LetterKey('p')), log)
      == EventStep(s.(settings := s.settings.(paused := !s.settings.paused)), prevPlay, log, None, false, false)
  {
    NoSquareIsP(s);
    SweepUnmatched(s.keys, s.order, LetterKey('p'), true, Env(s), log);
    assert s.(keys := s.keys) == s;
  }

  /** P acts on the press and again on the release: pressing and releasing
      it leaves the pause, and the whole renderer, as it was. */
  lemma PressAndReleaseP(s: RState, prevPlay: Option<bool>, log: seq<Effect>)
    requires Valid(s)
    ensures var r := HandleEvents(s, prevPlay, [KeyDown(LetterKey('p')), KeyUp(LetterKey('p'))], log);
      && !r.stop
      && r.state == s
  {
    var s1 := s.(settings := s.settings.(paused := !s.settings.paused));
    FirstOfTwo(s, prevPlay, log);
    assert Valid(s1);
    OnlyRelease(s1, prevPlay, log);
  }

  lemma FirstOfTwo(s: RState, prevPlay: Option<bool>, log: seq<Effect>)
    requires Valid(s)
    ensures HandleEvents(s, prevPlay, [KeyDown(LetterKey('p')), KeyUp(LetterKey('p'))], log)
      == HandleEvents(s.(settings := s.settings.(paused := !s.settings.paused)), prevPlay, [KeyUp(LetterKey('p'))], log)
  {
    PressPToggles(s, prevPlay, log);
    assert [KeyDown(LetterKey('p')), KeyUp(LetterKey('p'))][1..] == [KeyUp(LetterKey('p'))];
  }

  lemma OnlyRelease(s: RState, prevPlay: Option<bool>, log: seq<Effect>)
    requires Valid(s)
    ensures HandleEvents(s, prevPlay, [KeyUp(LetterKey('p'))], log)
      == EventStep(s.(settings := s.settings.(paused := !s.settings.paused)), prevPlay, log, None, false, false)
  {
    ReleasePToggles(s, prevPlay, log);
  }

  // ---------------------------------------------------------------------
  // `dump`

  /** The dump holds exactly the (pitch, time) pairs of the listed keys'
      timelines, and as many of them as those timelines have events. */
  lemma {:induction false} DumpKeysSpec(ks: map<int, KeyState>, order: seq<int>)
    ensures forall n :: n in DumpKeys(ks, order) <==> exists p :: p in order && p in ks && n in Dump(ks[p])
    decreases |order|
  {
    if order != [] {
      var init := order[..|order| - 1];
      var last := order[|order| - 1];
      DumpKeysSpec(ks, init);
      assert order == init + [last];
      forall n
        ensures n in DumpKeys(ks, order) <==> exists p :: p in order && p in ks && n in Dump(ks[p])
      {
        if n in DumpKeys(ks, order) {
          if n in DumpKeys(ks, init) {
            var p :| p in init && p in ks && n in Dump(ks[p]);
            assert p in order;
          } else {
            assert last in order;
          }
        } else {
          forall p | p in order && p in ks
            ensures n !in Dump(ks[p])
          {
            if p != last {
              assert p in init;
            }
          }
        }
      }
    }
  }

  /** A valid renderer dumps the events of all its keys and nothing else. */
  lemma DumpHoldsEveryEvent(s: RState)
    requires Valid(s)
    ensures forall p, i :: p in s.keys && 0 <= i < |s.keys[p].when| ==> Note(p, s.keys[p].when[i]) in DumpKeys(s.keys, s.order)
    ensures forall n :: n in DumpKeys(s.keys, s.order) ==> n.pitch in s.keys && n.time in s.keys[n.pitch].when
  {
    DumpKeysSpec(s.keys, s.order);
    forall p, i | p in s.keys && 0 <= i < |s.keys[p].when|
      ensures Note(p, s.keys[p].when[i]) in DumpKeys(s.keys, s.order)
    {
      assert Dump(s.keys[p])[i] == Note(p, s.keys[p].when[i]);
    }
    forall n | n in DumpKeys(s.keys, s.order)
      ensures n.pitch in s.keys && n.time in s.keys[n.pitch].when
    {
      var p :| p in s.order && p in s.keys && n in Dump(s.keys[p]);
      var i :| 0 <= i < |Dump(s.keys[p])| && Dump(s.keys[p])[i] == n;
      assert s.keys[p].when[i] == n.time;
    }
  }

  // ---------------------------------------------------------------------
  // `enqueue_file`

  /** The notes of `notes` that reach no key once transposed. */
  function Unplaced(ks: map<int, KeyState>, g: GameSettings, notes: seq<Note>, trDiff: int): (r: nat)
    ensures r <= |notes|
    decreases |notes|
  {
    if notes == [] then 0
    else Unplaced(ks, g, notes[..|notes| - 1], trDiff)
         + (if Transform(g, notes[|notes| - 1].pitch + trDiff) in ks then 0 else 1)
  }

  /** The times, shifted by `offset`, of the notes of `notes` that land on
      pitch `p`, in the order of `notes`. */
  function RoutedTo(p: int, g: GameSettings, notes: seq<Note>, trDiff: int, offset: real): (r: seq<real>)
    ensures |r| <= |notes|
    decreases |notes|
  {
    if notes == [] then []
    else
      var last := notes[|notes| - 1];
      RoutedTo(p, g, notes[..|notes| - 1], trDiff, offset)
        + (if Transform(g, last.pitch + trDiff) == p then [last.time + offset] else [])
  }

  /** The placement loop appends to each key exactly the shifted times of
      the notes that land on it, touches nothing else of the keys, counts
      the notes with no key as bad and the rest as good, and moves the
      queue end to the latest shifted time if that is later. */
  lemma {:induction false} PlaceSpec(ks: map<int, KeyState>, g: GameSettings, notes: seq<Note>, trDiff: int, offset: real, enqueueAt: real)
    ensures var pl := Place(ks, g, notes, trDiff, offset, enqueueAt);
      && pl.keys.Keys == ks.Keys
      && (forall p :: p in ks ==> pl.keys[p] == ks[p].(when := ks[p].when + RoutedTo(p, g, notes, trDiff, offset)))
      && pl.nbad == Unplaced(ks, g, notes, trDiff)
      && pl.ngood + pl.nbad == |notes|
      && pl.enqueueAt >= enqueueAt
      && (forall i :: 0 <= i < |notes| ==> pl.enqueueAt >= notes[i].time + offset)
      && (pl.enqueueAt == enqueueAt || exists i :: 0 <= i < |notes| && pl.enqueueAt == notes[i].time + offset)
    decreases |notes|
  {
    if notes != [] {
      var init := notes[..|notes| - 1];
      var last := notes[|notes| - 1];
      PlaceSpec(ks, g, init, trDiff, offset, enqueueAt);
      var prev := Place(ks, g, init, trDiff, offset, enqueueAt);
      var pl := PlaceNote(prev, g, last, trDiff, offset);
      assert pl == Place(ks, g, notes, trDiff, offset, enqueueAt);
      forall p | p in ks
        ensures pl.keys[p] == ks[p].(when := ks[p].when + RoutedTo(p, g, notes, trDiff, offset))
      {
        var routed := RoutedTo(p, g, init, trDiff, offset);
        if Transform(g, last.pitch + trDiff) == p {
          assert ks[p].when + routed + [last.time + offset] == ks[p].when + (routed + [last.time + offset]);
        } else {
          assert routed + [] == routed;
        }
      }
      forall i | 0 <= i < |notes|
        ensures pl.enqueueAt >= notes[i].time + offset
      {
        if i < |init| {
          assert notes[i] == init[i];
        }
      }
      if pl.enqueueAt != enqueueAt && pl.enqueueAt != last.time + offset {
        var i :| 0 <= i < |init| && prev.enqueueAt == init[i].time + offset;
        assert notes[i] == init[i];
      }
    }
  }

  /** A tune whose best transposition scores below the threshold changes
      nothing but the clock, which `enqueue_file` zeroes first. */
  lemma RejectedOnlyResetsClock(s: RState, notes: seq<Note>, clearExisting: bool, minConfidence: real)
    ensures var r := Enqueue(s, notes, clearExisting, minConfidence);
      r.outcome.Rejected? ==> r.state == s.(now := 0.0) && r.effects == [] && r.outcome.score < minConfidence
  {
  }

  /** An empty tune raises in `autotranspose` (after the clock is zeroed);
      a tune that is enqueued has every one of its notes counted, as placed
      or as unplaced, so the closing percentage never divides by zero. */
  lemma EnqueueCountsEveryNote(s: RState, notes: seq<Note>, clearExisting: bool, minConfidence: real)
    ensures var r := Enqueue(s, notes, clearExisting, minConfidence);
      && (notes == [] ==> r == EnqueueFrame(s.(now := 0.0), [], Raised(DivisionByZero)))
      && (r.outcome.Enqueued? ==> r.outcome.ngood + r.outcome.nbad == |notes| > 0)
  {
    var s0 := s.(now := 0.0);
    var solved := Transpose.Solve(notes);
    if solved.Ok? && solved.value.1 >= minConfidence {
      var reset := Reset(s0, clearExisting);
      if !reset.outcome.Raised? {
        var sorted := SortByTime(notes);
        PlaceSpec(reset.state.keys, reset.state.settings, sorted, solved.value.0 - s0.settings.transposeAmount,
                  reset.state.enqueueAt, reset.state.enqueueAt);
      }
    }
  }

  /** A queue reset that raises nothing empties every timeline, releases
      every key, keeps every cursor where it was and starts the queue at
      two seconds. */
  lemma ResetClears(s: RState)
    requires Valid(s) && !s.recordingMode
    ensures var r := Reset(s, true);
      && r.outcome.Enqueued?
      && r.state.enqueueAt == 2.0
      && forall p :: p in s.keys ==>
           r.state.keys[p].when == [] && r.state.keys[p].whenIx == s.keys[p].whenIx && !r.state.keys[p].isReallyDown
  {
    var sw := SweepKeys(s.keys, s.order, ClearOp, Env(s), []);
    SweepAllKeys(s, ClearOp, []);
    ClearNeverFaults(s.keys, s.order, Env(s), []);
    forall p | p in s.keys
      ensures sw.keys[p].when == [] && sw.keys[p].whenIx == s.keys[p].whenIx && !sw.keys[p].isReallyDown
    {
      ClearKeepsCursor(s.keys[p], Env(s), []);
    }
  }

  /** Outside recording mode, clearing a key never raises. */
  lemma {:induction false} ClearNeverFaults(ks: map<int, KeyState>, order: seq<int>, env: KeyEnv, log: seq<Effect>)
    requires MacroIgnoresKeypresses(env) && !env.recordingMode
    ensures !SweepKeys(ks, order, ClearOp, env, log).faulted
    decreases |order|
  {
    if order != [] {
      if order[0] in ks {
        var s := Apply(ClearOp, ks[order[0]], env);
        ClearKeepsCursor(ks[order[0]], env, []);
        ClearNeverFaults(ks[order[0] := s.key], order[1..], env, log + s.effects);
      } else {
        ClearNeverFaults(ks, order[1..], env, log);
      }
    }
  }

  /** The quirk of a queue reset: the cursors are kept, so when a new tune
      is enqueued onto a key that had consumed `c` events, its first `c`
      new events are never offered by `peek`. */
  lemma ResetThenPlaceSkips(s: RState, notes: seq<Note>, trDiff: int, p: int)
    requires Valid(s) && !s.recordingMode && p in s.keys
    ensures var reset := Reset(s, true);
      var r := PlaceInto(reset.state, notes, trDiff);
      var times := RoutedTo(p, s.settings, notes, trDiff, 2.0);
      && p in r.state.keys
      && r.state.keys[p].when == times
      && r.state.keys[p].whenIx == s.keys[p].whenIx
      && Peek(r.state.keys[p]) == (if s.keys[p].whenIx < |times| then Some(times[s.keys[p].whenIx]) else None)
  {
    var reset := Reset(s, true);
    ResetClears(s);
    PlaceSpec(reset.state.keys, reset.state.settings, notes, trDiff, 2.0, 2.0);
    assert [] + RoutedTo(p, s.settings, notes, trDiff, 2.0) == RoutedTo(p, s.settings, notes, trDiff, 2.0);
  }

  // ---------------------------------------------------------------------
  // The renderer at start

  /** A new renderer: no key has any event, every key is up and expected
      up, so it may progress and is not reviewing a recording, and the
      dump is empty. */
  lemma InitialIsQuiet(g: Settings)
    ensures var s := Initial(g);
      && RendererModel.OkayToProgress(s)
      && !ReviewingRecording(s)
      && forall p :: p in s.keys ==> s.keys[p] == Fresh(p, KeyLetter(p))
  {
  }
}
