/** Class `MIDIRenderer` of render_notes.py: the settings, the clock, the flags
    and the map of key squares, updated in place. Every method is proved to
    leave the renderer in the state the matching function of module
    RendererModel computes from the old one, with the same side effects. */
module Renderer {
  import opened Wrappers
  import opened Pitches
  import opened Notes
  import opened KeyModel
  import opened Keys
  import opened RendererModel
  import Transpose

  /** One key of a pass over all keys: the operation `op` on key square `k`. */
  method ApplyTo(k: KeySquare, op: KeyOp, env: KeyEnv) returns (effects: seq<Effect>, faulted: bool)
    requires MacroIgnoresKeypresses(env)
    modifies k
    ensures Step(k.State(), effects, faulted) == Apply(op, old(k.State()), env)
  {
    match op
    case UpdateOp =>
      effects, faulted := k.Update(env, env.now);
    case BackoutOp =>
      effects, faulted := k.BackoutBefore(env, env.now);
    case ClearOp =>
      effects, faulted := k.ClearAndRelease(env);
    case PressOp(code) =>
      if code == LetterKey(Lower(k.letter)) {
        effects, faulted := k.RealDown(env, true);
      } else {
        effects, faulted := [], false;
      }
    case ReleaseOp(code) =>
      if code == LetterKey(Lower(k.letter)) {
        effects, faulted := k.RealUp(env, true);
      } else {
        effects, faulted := [], false;
      }
  }

  /** The keys made so far: one key square per pitch with a key below
      `below`, each in the state of a new key, no square shared by two
      pitches. */
  ghost predicate Made(m: map<int, KeySquare>, below: int)
    reads m.Values
  {
    && (forall p :: p in m <==> LowestNote <= p < below && HasKey(p))
    && (forall p :: p in m ==> HasKey(p) && m[p].State() == Fresh(p, KeyLetter(p)))
    && (forall p, q :: p in m && q in m && p != q ==> m[p] != m[q])
  }

  /** The insertion order `created` of the squares in `m`: every pitch
      with a square, once each, in ascending order. */
  ghost predicate CreatedInOrder(created: seq<int>, m: map<int, KeySquare>)
  {
    && (forall i, j :: 0 <= i < j < |created| ==> created[i] < created[j])
    && (forall p :: p in created <==> p in m)
  }

  /** Two ascending sequences with the same elements are equal. */
  lemma {:induction false} AscendingUnique(a: seq<int>, b: seq<int>)
    requires forall i, j :: 0 <= i < j < |a| ==> a[i] < a[j]
    requires forall i, j :: 0 <= i < j < |b| ==> b[i] < b[j]
    requires forall p :: p in a <==> p in b
    ensures a == b
  {
    assert a != [] ==> a[0] in a;
    assert b != [] ==> b[0] in b;
    if a != [] {
      var i :| 0 <= i < |b| && b[i] == a[0];
      var j :| 0 <= j < |a| && a[j] == b[0];
      assert b[0] <= a[0] <= b[0];
      forall p
        ensures p in a[1..] <==> p in b[1..]
      {
        if p in a[1..] {
          assert p in b && p != b[0];
        }
        if p in b[1..] {
          assert p in a && p != a[0];
        }
      }
      AscendingUnique(a[1..], b[1..]);
      assert a == [a[0]] + a[1..];
      assert b == [b[0]] + b[1..];
    }
  }

  /** A square made for a pitch above all earlier ones keeps the order
      ascending. */
  lemma CreatedInOrderPush(created: seq<int>, m: map<int, KeySquare>, pitch: int, k: KeySquare)
    requires CreatedInOrder(created, m)
    requires forall p :: p in m ==> p < pitch
    ensures CreatedInOrder(created + [pitch], m[pitch := k])
  {
    forall i | 0 <= i < |created|
      ensures created[i] < pitch
    {
      assert created[i] in m;
    }
  }

  /** The keys `_setup_keys` makes, as values, are those of a new renderer. */
  lemma MadeIsInitial(m: map<int, KeySquare>)
    requires Made(m, HighestNote)
    ensures (map p | p in m :: m[p].State()) == FreshKeys()
    ensures forall i :: 0 <= i < |KeyOrder()| ==> KeyOrder()[i] in m
  {
    assert forall p :: HasKey(p) ==> LowestNote <= p < HighestNote;
    var made := map p | p in m :: m[p].State();
    var initial := FreshKeys();
    forall p
      ensures p in made <==> p in initial
    {
    }
    forall p | p in initial
      ensures made[p] == initial[p]
    {
    }
    forall i | 0 <= i < |KeyOrder()|
      ensures KeyOrder()[i] in m
    {
      assert KeyOrder()[i] in KeyOrder();
    }
  }

  /** `_setup_keys` on an empty dictionary: walk the three rows of the
      layout, one pitch per slot, and create a key square for every slot with
      a letter. `created` is the insertion order. */
  method SetupKeys() returns (m: map<int, KeySquare>, created: seq<int>)
    ensures created == KeyOrder()
    ensures Made(m, HighestNote)
    ensures forall p :: p in m ==> fresh(m[p])
  {
    m, created := map[], [];
    var pitch := LowestNote;
    for row := 0 to 3
      invariant pitch == LowestNote + OctaveSemitones * row
      invariant CreatedInOrder(created, m)
      invariant Made(m, pitch)
      invariant forall p :: p in m ==> fresh(m[p])
    {
      m, created := SetupRow(row, pitch, m, created);
      pitch := pitch + OctaveSemitones;
    }
    assert forall p :: HasKey(p) ==> LowestNote <= p < HighestNote;
    AscendingUnique(created, KeyOrder());
  }

  /** One row of `_setup_keys`, starting at pitch `first`: a key square for
      each slot with a letter whose pitch has none yet. */
  method SetupRow(row: int, first: int, m0: map<int, KeySquare>, created0: seq<int>)
    returns (m: map<int, KeySquare>, created: seq<int>)
    requires 0 <= row < 3 && first == LowestNote + OctaveSemitones * row
    requires CreatedInOrder(created0, m0)
    requires Made(m0, first)
    ensures CreatedInOrder(created, m)
    ensures Made(m, first + OctaveSemitones)
    ensures forall p :: p in m ==> (p in m0 && m[p] == m0[p]) || fresh(m[p])
  {
    m, created := m0, created0;
    var pitch := first;
    // Every row of the layout is one octave wide.
    for column := 0 to OctaveSemitones
      invariant pitch == first + column
      invariant CreatedInOrder(created, m)
      invariant Made(m, pitch)
      invariant forall p :: p in m ==> (p in m0 && m[p] == m0[p]) || fresh(m[p])
    {
      m, created := SetupSlot(row, column, pitch, m, created);
      pitch := pitch + 1;
    }
  }

  /** One slot of a row, pitch `pitch`: create the key square if the slot
      has a letter and its pitch has no square yet. */
  method SetupSlot(row: int, column: int, pitch: int, m0: map<int, KeySquare>, created0: seq<int>)
    returns (m: map<int, KeySquare>, created: seq<int>)
    requires 0 <= row < 3 && 0 <= column < OctaveSemitones
    requires pitch == LowestNote + OctaveSemitones * row + column
    requires CreatedInOrder(created0, m0)
    requires Made(m0, pitch)
    ensures CreatedInOrder(created, m)
    ensures Made(m, pitch + 1)
    ensures forall p :: p in m ==> (p in m0 && m[p] == m0[p]) || fresh(m[p])
  {
    SlotOfPitch(row, column);
    m, created := m0, created0;
    var noteKeypress := Layout[row][column];
    if noteKeypress != '_' {
      if pitch !in m {
        var k := new KeySquare(pitch);
        CreatedInOrderPush(created, m, pitch, k);
        m := m[pitch := k];
        created := created + [pitch];
      }
    }
  }

  /** Slot `column` of row `row` is the pitch `48 + 12 * row + column`: it
      owns a key exactly when the slot has a letter. */
  lemma SlotOfPitch(row: int, column: int)
    requires 0 <= row < 3 && 0 <= column < |Layout[row]|
    ensures var pitch := LowestNote + OctaveSemitones * row + column;
      && (HasKey(pitch) <==> Layout[row][column] != '_')
  {
    var offset := OctaveSemitones * row + column;
    assert offset / OctaveSemitones == row && offset % OctaveSemitones == column;
  }

  class MIDIRenderer {
    var settings: Settings
    var now: real
    var enqueueAt: real
    var isDone: bool
    var isStaggered: bool
    var recordingMode: bool
    var windowFocused: bool
    var lastUpdate: Option<real>
    /** The dictionary of key squares. `_setup_keys` fills it once and later
        calls only move the squares on screen, so the map itself never
        changes; the squares do. */
    const keys: map<int, KeySquare>
    /** The dictionary's insertion order. */
    const order: seq<int>

    /** The keys' states as a map of values. */
    function KeyStates(): (ks: map<int, KeyState>)
      reads keys.Values
      ensures ks.Keys == keys.Keys
    {
      map p | p in keys :: keys[p].State()
    }

    /** The renderer as a value. */
    function Abstract(): RState
      reads this, keys.Values
    {
      RState(settings, now, enqueueAt, isDone, isStaggered, recordingMode, windowFocused, lastUpdate, KeyStates(), order)
    }

    /** The class invariant: one key square per pitch of the insertion
        order, no square shared by two pitches. It reads only constants, so
        once true it stays true. */
    ghost predicate Keyed()
    {
      && (forall p :: p in keys <==> p in order)
      && (forall i :: 0 <= i < |order| ==> order[i] in keys)
      && (forall p, q :: p in keys && q in keys && p != q ==> keys[p] != keys[q])
      && (forall p :: p in keys ==> keys[p] as object != this as object)
    }

    /** What `_setup_keys` laid out: the pitches that own a key, in
        ascending order, each square knowing its pitch and letter. It reads
        only constants, so once true it stays true. */
    ghost predicate Laid()
    {
      && order == KeyOrder()
      && (forall p :: p in keys ==> HasKey(p) && keys[p].pitch == p && keys[p].letter == KeyLetter(p))
    }

    /** The keys `_setup_keys` made establish the class invariant and are
        the keys of a new renderer. */
    lemma SetUp()
      requires order == KeyOrder() && Made(keys, HighestNote)
      ensures Keyed() && Laid() && KeyStates() == FreshKeys()
    {
      MadeIsInitial(keys);
    }

    /** The class invariant implies the invariant of the value. */
    lemma AbstractIsValid()
      requires Keyed() && Laid()
      ensures RendererModel.Valid(Abstract())
    {
    }

    /** The operation `op` on the key of pitch `p`; no other key changes. */
    method ApplyAt(p: int, op: KeyOp, env: KeyEnv) returns (effects: seq<Effect>, faulted: bool)
      requires Keyed() && p in keys && MacroIgnoresKeypresses(env)
      modifies keys[p]
      ensures var st := Apply(op, old(KeyStates())[p], env);
        KeyStates() == old(KeyStates())[p := st.key] && effects == st.effects && faulted == st.faulted
    {
      effects, faulted := ApplyTo(keys[p], op, env);
      forall q | q in keys && q != p
        ensures keys[q].State() == old(keys[q].State())
      {
        assert keys[q] != keys[p];
      }
    }

    /** `real_toggle()` on the key of pitch `p`; no other key changes. */
    method ToggleAt(p: int, env: KeyEnv) returns (effects: seq<Effect>, faulted: bool)
      requires Keyed() && p in keys && MacroIgnoresKeypresses(env)
      modifies keys[p]
      ensures var st := RealToggle(old(KeyStates())[p], env, false);
        KeyStates() == old(KeyStates())[p := st.key] && effects == st.effects && faulted == st.faulted
    {
      effects, faulted := keys[p].RealToggle(env, false);
      forall q | q in keys && q != p
        ensures keys[q].State() == old(keys[q].State())
      {
        assert keys[q] != keys[p];
      }
    }

    /** `the_key.when.append(when)` on the key of pitch `p`. */
    method AppendAt(p: int, when: real)
      requires Keyed() && p in keys
      modifies keys[p]
      ensures KeyStates() == old(KeyStates())[p := old(KeyStates())[p].(when := old(KeyStates())[p].when + [when])]
    {
      var theKey := keys[p];
      theKey.when := theKey.when + [when];
      forall q | q in keys && q != p
        ensures keys[q].State() == old(keys[q].State())
      {
        assert keys[q] != keys[p];
      }
    }

    /** `__init__` without the window, the MIDI ports and the file index:
        the preset settings or the defaults, then `_setup_keys`. */
    constructor (preset: Option<Settings>)
      ensures Keyed() && Laid()
      ensures Abstract() == Initial(if preset.Some? then preset.value else DefaultSettings())
    {
      settings := if preset.Some? then preset.value else DefaultSettings();
      now := 0.0;
      enqueueAt := 2.0;
      isDone := false;
      recordingMode := false;
      lastUpdate := None;
      windowFocused := true;
      var m, created := SetupKeys();
      keys := m;
      order := created;
      isStaggered := true;
      new;
      SetUp();
    }

    /** A pass over every key, in creation order; `log` holds the effects
        issued before it and `effects` is `log` followed by the pass's own. */
    method SweepAll(op: KeyOp, env: KeyEnv, log: seq<Effect>) returns (effects: seq<Effect>, faulted: bool)
      requires Keyed() && MacroIgnoresKeypresses(env)
      modifies keys.Values
      ensures Sweep(KeyStates(), effects, faulted) == SweepKeys(old(KeyStates()), order, op, env, log)
      ensures Abstract() == old(Abstract()).(keys := KeyStates())
    {
      ghost var total := SweepKeys(KeyStates(), order, op, env, log);
      effects, faulted := log, false;
      for i := 0 to |order|
        invariant total == SweepKeys(KeyStates(), order[i..], op, env, effects)
      {
        var p := order[i];
        assert p in order;
        assert order[i..][1..] == order[i + 1..];
        var e, f := ApplyAt(p, op, env);
        effects := effects + e;
        if f {
          faulted := true;
          assert unchanged(this);
          return;
        }
      }
      assert unchanged(this);
    }

    /** `_transform_pitch`: add the transposition, then fold by octaves. */
    method TransformPitch(pitch: int) returns (transposed: int)
      ensures transposed == Transform(settings, pitch)
    {
      transposed := settings.transposeAmount + pitch;
      if settings.keepInBounds {
        ghost var t := transposed;
        while transposed > HighestNote
          invariant (transposed - t) % OctaveSemitones == 0
          invariant t > HighestNote ==> transposed > HighestNote - OctaveSemitones
          invariant t <= HighestNote ==> transposed == t
          decreases transposed
        {
          transposed := transposed - OctaveSemitones;
        }
        while transposed < LowestNote
          invariant (transposed - t) % OctaveSemitones == 0
          invariant transposed <= HighestNote
          invariant t > HighestNote ==> transposed > HighestNote - OctaveSemitones
          invariant t < LowestNote ==> transposed < LowestNote + OctaveSemitones
          invariant LowestNote <= t <= HighestNote ==> transposed == t
          decreases LowestNote - transposed
        {
          transposed := transposed + OctaveSemitones;
        }
        FoldUnique(t, transposed);
      }
    }

    /** `okay_to_progress`: stops at the first key that holds the clock back. */
    method OkayToProgress() returns (okay: bool)
      requires Keyed()
      ensures okay == RendererModel.OkayToProgress(Abstract())
    {
      if settings.recordingPlays {
        return true;
      }
      for i := 0 to |order|
        invariant forall j :: 0 <= j < i ==> KeyModel.OkayToProgress(keys[order[j]].State())
      {
        if !KeyModel.OkayToProgress(keys[order[i]].State()) {
          ghost var w := order[i];
          assert w in KeyStates() && KeyStates()[w] == keys[w].State();
          return false;
        }
      }
      forall p | p in keys
        ensures KeyModel.OkayToProgress(keys[p].State())
      {
        var j :| 0 <= j < |order| && order[j] == p;
      }
      return true;
    }

    /** `reviewing_recording`: stops at the first key with events ahead. */
    method ReviewingRecording() returns (reviewing: bool)
      requires Keyed()
      ensures reviewing == RendererModel.ReviewingRecording(Abstract())
    {
      if !recordingMode {
        return false;
      }
      for i := 0 to |order|
        invariant forall j :: 0 <= j < i ==> keys[order[j]].whenIx == |keys[order[j]].when|
      {
        var k := keys[order[i]];
        if k.whenIx != |k.when| {
          ghost var w := order[i];
          assert w in KeyStates() && KeyStates()[w] == k.State();
          return true;
        }
      }
      forall p | p in keys
        ensures keys[p].whenIx == |keys[p].when|
      {
        var j :| 0 <= j < |order| && order[j] == p;
      }
      return false;
    }

    /** `dump`: every key's pairs, key after key. */
    method Dump() returns (fullDump: seq<Note>)
      requires Keyed()
      ensures fullDump == DumpKeys(KeyStates(), order)
    {
      fullDump := [];
      for i := 0 to |order|
        invariant fullDump == DumpKeys(KeyStates(), order[..i])
      {
        assert order[i] in order;
        assert order[..i + 1][..i] == order[..i];
        fullDump := fullDump + KeyModel.Dump(keys[order[i]].State());
      }
      assert order[..|order|] == order;
    }

    /** The note loop of `enqueue_file`: route every note to its key, append
        its time shifted by the queue offset, count the notes with and
        without a key, and push `enqueue_at` to the latest time. */
    method PlaceNotes(sortedWw: seq<Note>, trDiff: int) returns (ngood: nat, nbad: nat)
      requires Keyed()
      modifies this`enqueueAt, keys.Values
      ensures Placement(KeyStates(), ngood, nbad, enqueueAt)
           == Place(old(KeyStates()), settings, sortedWw, trDiff, old(enqueueAt), old(enqueueAt))
      ensures Abstract() == old(Abstract()).(keys := KeyStates(), enqueueAt := enqueueAt)
      ensures EnqueueFrame(Abstract(), [], Enqueued(ngood, nbad)) == PlaceInto(old(Abstract()), sortedWw, trDiff)
    {
      ghost var ks := KeyStates();
      ngood, nbad := 0, 0;
      var offset := enqueueAt;
      for i := 0 to |sortedWw|
        invariant Place(ks, settings, sortedWw[..i], trDiff, offset, offset)
               == Placement(KeyStates(), ngood, nbad, enqueueAt)
      {
        assert sortedWw[..i + 1][..i] == sortedWw[..i];
        ngood, nbad := PlaceOne(sortedWw[i], trDiff, offset, ngood, nbad);
      }
      assert sortedWw[..|sortedWw|] == sortedWw;
    }

    /** The body of the note loop for one note. */
    method PlaceOne(n: Note, trDiff: int, offset: real, ngood: nat, nbad: nat) returns (ngood': nat, nbad': nat)
      requires Keyed()
      modifies this`enqueueAt, keys.Values
      ensures Placement(KeyStates(), ngood', nbad', enqueueAt)
           == PlaceNote(Placement(old(KeyStates()), ngood, nbad, old(enqueueAt)), settings, n, trDiff, offset)
    {
      ngood', nbad' := ngood, nbad;
      var what := TransformPitch(n.pitch + trDiff);
      var when := n.time + offset;
      ghost var ks := old(KeyStates());
      if what in keys {
        AppendAt(what, when);
        ks := ks[what := ks[what].(when := ks[what].when + [when])];
        ngood' := ngood' + 1;
      } else {
        nbad' := nbad' + 1;
      }
      assert KeyStates() == ks;
      enqueueAt := Max(enqueueAt, when);
      assert KeyStates() == ks;
    }

    /** `enqueue_file` once the file is read: reset the clock, transpose
        automatically, refuse a tune that is too chromatic, optionally clear
        the queues, then place the notes in time order. */
    method EnqueueNotes(notes: seq<Note>, clearExisting: bool, minConfidence: real)
      returns (effects: seq<Effect>, outcome: EnqueueOutcome)
      requires Keyed()
      modifies this`now, this`enqueueAt, keys.Values
      ensures EnqueueFrame(Abstract(), effects, outcome) == Enqueue(old(Abstract()), notes, clearExisting, minConfidence)
    {
      now := 0.0;
      var solved := Transpose.Autotranspose(notes);
      effects, outcome := EnqueueSolved(notes, solved, clearExisting, minConfidence);
    }

    /** `enqueue_file` once `autotranspose` has answered. */
    method EnqueueSolved(notes: seq<Note>, solved: Result<(int, real)>, clearExisting: bool, minConfidence: real)
      returns (effects: seq<Effect>, outcome: EnqueueOutcome)
      requires Keyed()
      modifies this`enqueueAt, keys.Values
      ensures EnqueueFrame(Abstract(), effects, outcome)
           == RendererModel.EnqueueSolved(old(Abstract()), notes, solved, clearExisting, minConfidence)
    {
      if solved.Err? {
        return [], Raised(solved.fault);
      }
      var (tr, trScore) := solved.value;
      if trScore < minConfidence {
        return [], Rejected(trScore);
      }
      effects, outcome := PlaceAll(notes, tr - settings.transposeAmount, clearExisting);
    }

    /** The rest of `enqueue_file` once the shift is chosen. */
    method PlaceAll(notes: seq<Note>, trDiff: int, clearExisting: bool)
      returns (effects: seq<Effect>, outcome: EnqueueOutcome)
      requires Keyed()
      modifies this`enqueueAt, keys.Values
      ensures EnqueueFrame(Abstract(), effects, outcome) == RendererModel.PlaceAll(old(Abstract()), notes, trDiff, clearExisting)
    {
      ghost var reset := Reset(Abstract(), clearExisting);
      effects, outcome := ResetQueues(clearExisting);
      if outcome.Raised? {
        return;
      }
      ghost var mid := Abstract();
      assert mid == reset.state && effects == reset.effects;
      var ngood, nbad := PlaceNotes(SortByTime(notes), trDiff);
      assert Abstract() == PlaceInto(mid, SortByTime(notes), trDiff).state;
      outcome := Enqueued(ngood, nbad);
    }

    /** The optional queue reset of `enqueue_file`: every key's queue
        cleared and the key released, then the queue restarted at two
        seconds. */
    method ResetQueues(clearExisting: bool) returns (effects: seq<Effect>, outcome: EnqueueOutcome)
      requires Keyed()
      modifies this`enqueueAt, keys.Values
      ensures EnqueueFrame(Abstract(), effects, outcome) == Reset(old(Abstract()), clearExisting)
    {
      effects, outcome := [], Enqueued(0, 0);
      if clearExisting {
        var faulted;
        effects, faulted := SweepAll(ClearOp, Env(Abstract()), []);
        if faulted {
          outcome := Raised(StillHaveStuffToPlay);
          return;
        }
        enqueueAt := 2.0;
      }
    }

    /** The clock at the top of `update`. */
    method Tick(wallTime: real)
      requires Keyed()
      modifies this`now, this`lastUpdate
      ensures Abstract() == RendererModel.Tick(old(Abstract()), wallTime)
    {
      if lastUpdate.Some? {
        var elapsed := wallTime - lastUpdate.value;
        if !settings.paused {
          var advance := true;
          if settings.progressionMode {
            advance := OkayToProgress();
          }
          if advance {
            now := now + elapsed * settings.timescale;
          }
        }
      }
      lastUpdate := Some(wallTime);
    }

    /** The start of `update`: the clock, then the window focus, which is
        read from the window and here given as a parameter. */
    method StartFrame(wallTime: real, focused: bool)
      requires Keyed()
      modifies this`now, this`lastUpdate, this`windowFocused
      ensures Abstract() == RendererModel.StartFrame(old(Abstract()), wallTime, focused)
    {
      Tick(wallTime);
      windowFocused := focused;
    }

    /** The branches of KEYDOWN before the letter keys. The source tests the
        key code against each of them in turn; the codes differ and no branch
        changes the code, so at most one of them applies. */
    method KeyCommand(prevPlay: Option<bool>, code: KeyCode, log: seq<Effect>)
      returns (pp: Option<bool>, effects: seq<Effect>, saved: Option<seq<Note>>, stop: bool, faulted: bool)
      requires Keyed()
      modifies this`isDone, this`recordingMode, this`now, this`settings, this`isStaggered, keys.Values
      ensures EventStep(Abstract(), pp, effects, saved, stop, faulted) == Command(old(Abstract()), prevPlay, code, log)
    {
      match code
      case Escape =>
        pp, effects, saved, stop, faulted := EscapeKey(prevPlay, log);
      case Digit0 =>
        pp, effects, saved, stop, faulted := RecordKey(prevPlay, log);
      case ArrowRight =>
        pp, effects, saved, stop, faulted := SeekForward(log);
      case ArrowLeft =>
        pp, effects, faulted := SeekBack(log);
        saved, stop := None, faulted;
      case _ =>
        pp, effects, saved, stop, faulted := SettingsKey(prevPlay, code, log);
    }

    /** Escape: the game is done and the event loop breaks. */
    method EscapeKey(prevPlay: Option<bool>, log: seq<Effect>)
      returns (pp: Option<bool>, effects: seq<Effect>, saved: Option<seq<Note>>, stop: bool, faulted: bool)
      requires Keyed()
      modifies this`isDone
      ensures EventStep(Abstract(), pp, effects, saved, stop, faulted) == Command(old(Abstract()), prevPlay, Escape, log)
    {
      isDone := true;
      pp, effects, saved, stop, faulted := prevPlay, log, None, true, false;
    }

    /** 0: in recording mode, the game is done, the recording is saved and
        the event loop breaks; otherwise recording starts from time zero at
        normal speed. */
    method RecordKey(prevPlay: Option<bool>, log: seq<Effect>)
      returns (pp: Option<bool>, effects: seq<Effect>, saved: Option<seq<Note>>, stop: bool, faulted: bool)
      requires Keyed()
      modifies this`isDone, this`recordingMode, this`now, this`settings
      ensures EventStep(Abstract(), pp, effects, saved, stop, faulted) == Command(old(Abstract()), prevPlay, Digit0, log)
    {
      pp, effects, saved, stop, faulted := prevPlay, log, None, false, false;
      if recordingMode {
        isDone := true;
        var fullDump := Dump();
        saved := Some(fullDump);
        stop := true;
      } else {
        recordingMode := true;
        now := 0.0;
        settings := settings.(timescale := 1.0);
      }
    }

    /** The right arrow: fifteen seconds ahead, sounds muted for the frame. */
    method SeekForward(log: seq<Effect>)
      returns (pp: Option<bool>, effects: seq<Effect>, saved: Option<seq<Note>>, stop: bool, faulted: bool)
      requires Keyed()
      modifies this`now, this`settings
      ensures EventStep(Abstract(), pp, effects, saved, stop, faulted) == Command(old(Abstract()), pp, ArrowRight, log)
      ensures pp == Some(old(settings).playSounds)
    {
      now := now + 15.0;
      pp := Some(settings.playSounds);
      settings := settings.(playSounds := false);
      effects, saved, stop, faulted := log, None, false, false;
    }

    /** The left arrow: fifteen seconds back, but not below zero, sounds
        muted, and every key backed out to the new time. */
    method SeekBack(log: seq<Effect>) returns (pp: Option<bool>, effects: seq<Effect>, faulted: bool)
      requires Keyed()
      modifies this`now, this`settings, keys.Values
      ensures EventStep(Abstract(), pp, effects, None, faulted, faulted) == Rewind(old(Abstract()), log)
    {
      ghost var s0 := Rewound(Abstract());
      now := Max(0.0, now - 15.0);
      pp := Some(settings.playSounds);
      settings := settings.(playSounds := false);
      assert Abstract() == s0;
      ghost var sw := SweepKeys(s0.keys, s0.order, BackoutOp, Env(s0), log);
      effects, faulted := SweepAll(BackoutOp, Env(Abstract()), log);
      assert KeyStates() == sw.keys && effects == sw.effects && faulted == sw.faulted;
      assert Abstract() == s0.(keys := sw.keys);
    }

    /** The settings keys: the arrows up and down, 1, 3 and P change the
        settings as Adjust says; 2 swaps the key layout. */
    method SettingsKey(prevPlay: Option<bool>, code: KeyCode, log: seq<Effect>)
      returns (pp: Option<bool>, effects: seq<Effect>, saved: Option<seq<Note>>, stop: bool, faulted: bool)
      requires code != Escape && code != Digit0 && code != ArrowRight && code != ArrowLeft
      modifies this`settings, this`isStaggered
      ensures EventStep(Abstract(), pp, effects, saved, stop, faulted) == Command(old(Abstract()), prevPlay, code, log)
    {
      ghost var s1 := Abstract().(settings := Adjust(settings, code), isStaggered := isStaggered != (code == Digit2));
      settings := Adjust(settings, code);
      if code == Digit2 {
        isStaggered := !isStaggered;
      }
      assert Abstract() == s1;
      pp, effects, saved, stop, faulted := prevPlay, log, None, false, false;
    }

    /** One pygame event; `log` holds the effects of the frame so far. */
    method HandleEvent(prevPlay: Option<bool>, ev: Event, log: seq<Effect>)
      returns (pp: Option<bool>, effects: seq<Effect>, saved: Option<seq<Note>>, stop: bool, faulted: bool)
      requires Keyed()
      modifies this, keys.Values
      ensures EventStep(Abstract(), pp, effects, saved, stop, faulted)
           == RendererModel.HandleEvent(old(Abstract()), prevPlay, ev, log)
    {
      match ev
      case WindowClose =>
        pp, effects, saved, stop, faulted := EscapeKey(prevPlay, log);
      case KeyDown(code) =>
        pp, effects, saved, stop, faulted := PressKey(prevPlay, code, log);
      case KeyUp(code) =>
        pp, effects, saved, stop, faulted := ReleaseKey(prevPlay, code, log);
      case OtherEvent =>
        pp, effects, saved, stop, faulted := prevPlay, log, None, false, false;
    }

    /** KEYDOWN: the command, then the key square with that letter. */
    method PressKey(prevPlay: Option<bool>, code: KeyCode, log: seq<Effect>)
      returns (pp: Option<bool>, effects: seq<Effect>, saved: Option<seq<Note>>, stop: bool, faulted: bool)
      requires Keyed()
      modifies this, keys.Values
      ensures EventStep(Abstract(), pp, effects, saved, stop, faulted)
           == RendererModel.PressKey(old(Abstract()), prevPlay, code, log)
    {
      pp, effects, saved, stop, faulted := KeyCommand(prevPlay, code, log);
      if stop || settings.ignoreKeypresses {
        return;
      }
      pp, effects, saved, stop, faulted := PressSquare(pp, code, effects);
    }

    /** The key square whose letter was pressed goes down. */
    method PressSquare(prevPlay: Option<bool>, code: KeyCode, log: seq<Effect>)
      returns (pp: Option<bool>, effects: seq<Effect>, saved: Option<seq<Note>>, stop: bool, faulted: bool)
      requires Keyed()
      modifies keys.Values
      ensures EventStep(Abstract(), pp, effects, saved, stop, faulted)
           == RendererModel.PressSquare(old(Abstract()), prevPlay, code, log)
    {
      effects, faulted := SweepAll(PressOp(code), Env(Abstract()), log);
      pp, saved, stop := prevPlay, None, faulted;
    }

    /** KEYUP: the key square with that letter, then P toggles the pause. */
    method ReleaseKey(prevPlay: Option<bool>, code: KeyCode, log: seq<Effect>)
      returns (pp: Option<bool>, effects: seq<Effect>, saved: Option<seq<Note>>, stop: bool, faulted: bool)
      requires Keyed()
      modifies this`settings, keys.Values
      ensures EventStep(Abstract(), pp, effects, saved, stop, faulted)
           == RendererModel.ReleaseKey(old(Abstract()), prevPlay, code, log)
    {
      pp, effects, saved, stop, faulted := prevPlay, log, None, false, false;
      if !settings.ignoreKeypresses {
        effects, faulted := SweepAll(ReleaseOp(code), Env(Abstract()), log);
        if faulted {
          stop := true;
          return;
        }
      }
      PauseKey(code);
    }

    /** The end of KEYUP: P pauses or resumes the game. */
    method PauseKey(code: KeyCode)
      modifies this`settings
      ensures Abstract() == RendererModel.PauseKey(old(Abstract()), code)
    {
      ghost var s1 := RendererModel.PauseKey(Abstract(), code);
      if code == LetterKey('p') {
        settings := settings.(paused := !settings.paused);
      }
      assert Abstract() == s1;
    }

    /** The event loop of `update`, up to a `break` or an exception. */
    method HandleEvents(events: seq<Event>)
      returns (prevPlay: Option<bool>, effects: seq<Effect>, saved: Option<seq<Note>>, stop: bool, faulted: bool)
      requires Keyed()
      modifies this, keys.Values
      ensures EventStep(Abstract(), prevPlay, effects, saved, stop, faulted)
           == RendererModel.HandleEvents(old(Abstract()), None, events, [])
    {
      ghost var total := RendererModel.HandleEvents(Abstract(), None, events, []);
      prevPlay, effects, saved, stop, faulted := None, [], None, false, false;
      for i := 0 to |events|
        invariant saved == None && !stop && !faulted
        invariant total == RendererModel.HandleEvents(Abstract(), prevPlay, events[i..], effects)
      {
        assert events[i..][1..] == events[i + 1..];
        ghost var e := RendererModel.HandleEvent(Abstract(), prevPlay, events[i], effects);
        assert total == if e.stop then e else RendererModel.HandleEvents(e.state, e.prevPlay, events[i + 1..], e.effects);
        prevPlay, effects, saved, stop, faulted := HandleEvent(prevPlay, events[i], effects);
        assert EventStep(Abstract(), prevPlay, effects, saved, stop, faulted) == e;
        if stop {
          return;
        }
      }
    }

    /** The MIDI input of `update`: toggle the key each played pitch maps to. */
    method ToggleMidiInput(pitches: seq<int>, env: KeyEnv, log: seq<Effect>) returns (effects: seq<Effect>, faulted: bool)
      requires Keyed() && MacroIgnoresKeypresses(env)
      modifies keys.Values
      ensures Sweep(KeyStates(), effects, faulted) == MidiToggles(old(KeyStates()), settings, env, pitches, log)
      ensures Abstract() == old(Abstract()).(keys := KeyStates())
    {
      ghost var total := MidiToggles(KeyStates(), settings, env, pitches, log);
      effects, faulted := log, false;
      for i := 0 to |pitches|
        invariant total == MidiToggles(KeyStates(), settings, env, pitches[i..], effects)
      {
        assert pitches[i..][1..] == pitches[i + 1..];
        var tr := TransformPitch(pitches[i]);
        if tr in keys {
          var e, f := ToggleAt(tr, env);
          effects := effects + e;
          if f {
            faulted := true;
            assert unchanged(this);
            return;
          }
        }
      }
      assert unchanged(this);
    }

    /** The end of `update`, after the events: the MIDI input (the pitches
        read from the input port, as a parameter), every key's
        `update(now)`, and `play_sounds` restored after a seek. */
    method EndFrame(prevPlay: Option<bool>, log: seq<Effect>, midiIn: seq<int>) returns (effects: seq<Effect>, faulted: bool)
      requires Keyed()
      modifies this`settings, keys.Values
      ensures Frame(Abstract(), effects, faulted) == RendererModel.EndFrame(old(Abstract()), prevPlay, log, midiIn)
    {
      ghost var s0 := Abstract();
      ghost var m := MidiToggles(s0.keys, s0.settings, Env(s0), midiIn, log);
      effects, faulted := ToggleMidiInput(midiIn, Env(Abstract()), log);
      assert Abstract() == s0.(keys := m.keys);
      if faulted {
        return;
      }
      effects, faulted := UpdateKeys(prevPlay, effects);
    }

    /** Every key's `update(now)`, then `play_sounds` restored after a seek. */
    method UpdateKeys(prevPlay: Option<bool>, log: seq<Effect>) returns (effects: seq<Effect>, faulted: bool)
      requires Keyed()
      modifies this`settings, keys.Values
      ensures Frame(Abstract(), effects, faulted) == RendererModel.UpdateKeys(old(Abstract()), prevPlay, log)
    {
      ghost var s0 := Abstract();
      ghost var sw := SweepKeys(s0.keys, s0.order, UpdateOp, Env(s0), log);
      effects, faulted := SweepAll(UpdateOp, Env(Abstract()), log);
      assert Abstract() == s0.(keys := sw.keys);
      if faulted {
        return;
      }
      RestorePlay(prevPlay);
    }

    /** `play_sounds` back to what it was before a seek in this frame. */
    method RestorePlay(prevPlay: Option<bool>)
      modifies this`settings
      ensures Abstract() == RendererModel.RestorePlay(old(Abstract()), prevPlay)
    {
      ghost var s1 := RendererModel.RestorePlay(Abstract(), prevPlay);
      if prevPlay.Some? {
        settings := settings.(playSounds := prevPlay.value);
      }
      assert Abstract() == s1;
    }

    /** `update` with the wall-clock time, the window focus, the pygame
        events and the pitches read from the MIDI input as parameters. */
    method Update(wallTime: real, focused: bool, events: seq<Event>, midiIn: seq<int>)
      returns (effects: seq<Effect>, saved: Option<seq<Note>>, faulted: bool)
      requires Keyed()
      modifies this, keys.Values
      ensures UpdateFrame(Abstract(), effects, saved, faulted)
           == UpdateRenderer(old(Abstract()), wallTime, focused, events, midiIn)
    {
      StartFrame(wallTime, focused);
      var prevPlay, stop;
      prevPlay, effects, saved, stop, faulted := HandleEvents(events);
      if faulted {
        return;
      }
      effects, faulted := EndFrame(prevPlay, effects, midiIn);
    }
  }
}
