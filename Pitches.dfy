/** MIDI note numbers (60 = middle C), the note-name table, the three-row
    computer-keyboard layout of the playable keys and folding by octaves. */
module Pitches {
  import opened Wrappers

  const MiddleC: int := 60
  const OctaveSemitones: int := 12
  /** The lowest playable pitch, 48. */
  const LowestNote: int := MiddleC - OctaveSemitones
  /** The highest fold target, 84; the keyboard itself stops at 83. */
  const HighestNote: int := MiddleC + 2 * OctaveSemitones

  /** Letter names from A upwards; '_' marks a sharp or flat. */
  const NoteNames: string := "A_BC_D_EF_G_"
  /** The A below middle C, 57: the reference for pitch classes. */
  const ReferenceA: int := MiddleC - 3

  /** Keyboard rows, lowest octave first; '_' marks a black key, which has no letter. */
  const Layout: seq<string> := ["Z_X_CV_B_N_M", "A_S_DF_G_H_J", "Q_W_ER_T_Y_U"]
  /** Number of pitch slots the layout covers (36). */
  const LayoutSlots: int := |Layout[0]| + |Layout[1]| + |Layout[2]|

  /** Pitch class counted from A: 0 is A, 3 is C, 11 is G sharp. */
  function PitchClass(pitch: int): (c: int)
    ensures 0 <= c < OctaveSemitones
    ensures (pitch - ReferenceA - c) % OctaveSemitones == 0
  {
    (pitch - ReferenceA) % OctaveSemitones
  }

  /** `midi_pitch_to_name`: the letter of a natural note, None for a sharp or flat. */
  function MidiPitchToName(pitch: int): (r: Option<char>)
    ensures r.Some? ==> r.value in "ABCDEFG"
  {
    var name := NoteNames[PitchClass(pitch)];
    if name == '_' then None else Some(name)
  }

  /** `midi_pitch_to_keyboard`: the key letter for a pitch, None outside the
      36 slots, and the failed assertion "Bad pitch" for a black key inside them. */
  function MidiPitchToKeyboard(pitch: int): (r: Result<Option<char>>)
    ensures r == Ok(None) <==> pitch < LowestNote || pitch >= LowestNote + LayoutSlots
    ensures r.Ok? && r.value.Some? ==> r.value.value != '_'
  {
    var offset := pitch - LowestNote;
    if offset < 0 || offset >= LayoutSlots then Ok(None)
    else
      var name := Layout[offset / OctaveSemitones][offset % OctaveSemitones];
      if name == '_' then Err(BadPitch) else Ok(Some(name))
  }

  /** The columns of the layout that hold '_' in every row: the sharps and
      flats of an octave that starts on C. */
  predicate BlackColumn(col: int)
  {
    col == 1 || col == 3 || col == 6 || col == 8 || col == 10
  }

  /** The pitches that own a key: the 36 slots of the layout minus its black
      columns. Lemma HasKeyIsSlotLetter shows these are exactly the pitches
      `midi_pitch_to_keyboard` gives a letter. */
  predicate HasKey(pitch: int)
  {
    LowestNote <= pitch < LowestNote + 36 && !BlackColumn((pitch - LowestNote) % 12)
  }

  /** A pitch owns a key exactly when `midi_pitch_to_keyboard` returns a
      letter for it, neither None nor the failed assertion. */
  lemma HasKeyIsSlotLetter(pitch: int)
    ensures HasKey(pitch) <==> MidiPitchToKeyboard(pitch).Ok? && MidiPitchToKeyboard(pitch).value.Some?
  {
    var offset := pitch - LowestNote;
    if 0 <= offset < LayoutSlots {
      var row, col := offset / OctaveSemitones, offset % OctaveSemitones;
      assert 0 <= row < 3 && col == offset % 12;
      SlotColumnIsBlack(row, col);
    }
  }

  /** The layout's '_' slots are exactly its black columns. */
  lemma SlotColumnIsBlack(row: int, col: int)
    requires 0 <= row < 3 && 0 <= col < OctaveSemitones
    ensures Layout[row][col] == '_' <==> BlackColumn(col)
  {
    if col == 0 {} else if col == 1 {} else if col == 2 {} else if col == 3 {}
    else if col == 4 {} else if col == 5 {} else if col == 6 {} else if col == 7 {}
    else if col == 8 {} else if col == 9 {} else if col == 10 {} else {}
  }

  /** The letter of a pitch that owns a key. */
  function KeyLetter(pitch: int): char
    requires HasKey(pitch)
  {
    HasKeyIsSlotLetter(pitch);
    MidiPitchToKeyboard(pitch).value.value
  }

  /** Every key letter is a capital and none of them is P, so the P key
      never lands on a key square. */
  lemma KeyLetterIsCapitalNotP(pitch: int)
    requires HasKey(pitch)
    ensures 'A' <= KeyLetter(pitch) <= 'Z' && KeyLetter(pitch) != 'P'
  {
    var offset := pitch - LowestNote;
    SlotLetterIsCapitalNotP(offset / OctaveSemitones, offset % OctaveSemitones);
  }

  /** The letters of the layout are capitals other than P. */
  lemma SlotLetterIsCapitalNotP(row: int, col: int)
    requires 0 <= row < 3 && 0 <= col < OctaveSemitones && Layout[row][col] != '_'
    ensures 'A' <= Layout[row][col] <= 'Z' && Layout[row][col] != 'P'
  {
    if col == 0 {} else if col == 2 {} else if col == 4 {} else if col == 5 {}
    else if col == 7 {} else if col == 9 {} else {}
  }

  /** The column of slot `col` is black in every row exactly when the note
      name table has no name for that pitch class (the layout starts on C,
      three semitones above A). */
  lemma SlotColumnMatchesNames(col: int)
    requires 0 <= col < OctaveSemitones
    ensures forall row :: 0 <= row < 3 ==>
      (Layout[row][col] == '_' <==> NoteNames[(col + 3) % OctaveSemitones] == '_')
  {
    if col == 0 {} else if col == 1 {} else if col == 2 {} else if col == 3 {}
    else if col == 4 {} else if col == 5 {} else if col == 6 {} else if col == 7 {}
    else if col == 8 {} else if col == 9 {} else if col == 10 {} else {}
  }

  /** Every slot of the layout that has a key letter is a natural note, and
      every natural note in the 36 slots has a key: the assertions of the key
      constructor ("Bad key", "no sharps or flats") can fail only together. */
  lemma KeysAreExactlyNaturals(pitch: int)
    requires LowestNote <= pitch < LowestNote + LayoutSlots
    ensures HasKey(pitch) <==> MidiPitchToName(pitch).Some?
    ensures !HasKey(pitch) ==> MidiPitchToKeyboard(pitch) == Err(BadPitch)
  {
    var col := (pitch - LowestNote) % OctaveSemitones;
    SlotColumnMatchesNames(col);
    PitchClassOfSlot(pitch);
  }

  /** The name of a slot's pitch is three places on from its column: the
      layout rows start at C, the names at A. */
  lemma PitchClassOfSlot(pitch: int)
    requires LowestNote <= pitch < LowestNote + LayoutSlots
    ensures PitchClass(pitch) == ((pitch - LowestNote) % OctaveSemitones + 3) % OctaveSemitones
  {
    var offset := pitch - LowestNote;
    if offset < 9 {
      assert PitchClass(pitch) == offset + 3;
    } else if offset < 12 {
      assert PitchClass(pitch) == offset - 9;
    } else if offset < 21 {
      assert PitchClass(pitch) == offset - 9;
    } else if offset < 24 {
      assert PitchClass(pitch) == offset - 21;
    } else if offset < 33 {
      assert PitchClass(pitch) == offset - 21;
    } else {
      assert PitchClass(pitch) == offset - 33;
    }
  }

  /** HIGHEST_NOTE is a legal fold target but owns no key. */
  lemma HighestNoteHasNoKey()
    ensures LowestNote + LayoutSlots == HighestNote
    ensures !HasKey(HighestNote) && MidiPitchToKeyboard(HighestNote) == Ok(None)
  {
  }

  /** The octave fold of `_transform_pitch` as a closed form: subtract octaves
      while above 84, add octaves while below 48. */
  function Fold(t: int): int
  {
    if t > HighestNote then t - OctaveSemitones * ((t - HighestNote + 11) / OctaveSemitones)
    else if t < LowestNote then t + OctaveSemitones * ((LowestNote - t + 11) / OctaveSemitones)
    else t
  }

  /** The fold lands in [48, 84], moves by whole octaves, leaves pitches
      in range alone and moves an out-of-range pitch by less than an octave
      past the nearest bound. */
  lemma FoldSpec(t: int)
    ensures LowestNote <= Fold(t) <= HighestNote
    ensures (Fold(t) - t) % OctaveSemitones == 0
    ensures LowestNote <= t <= HighestNote ==> Fold(t) == t
    ensures t > HighestNote ==> Fold(t) > HighestNote - OctaveSemitones
    ensures t < LowestNote ==> Fold(t) < LowestNote + OctaveSemitones
  {
  }

  /** Within [48, 84] a pitch is fixed by its class and by one octave of
      position: two candidates congruent modulo 12 that both lie in the top
      octave (or both in the bottom one) are equal. */
  lemma FoldUnique(t: int, r: int)
    requires LowestNote <= r <= HighestNote && (r - t) % OctaveSemitones == 0
    requires t > HighestNote ==> r > HighestNote - OctaveSemitones
    requires t < LowestNote ==> r < LowestNote + OctaveSemitones
    requires LowestNote <= t <= HighestNote ==> r == t
    ensures r == Fold(t)
  {
    FoldSpec(t);
    var f := Fold(t);
    assert (r - f) % OctaveSemitones == 0;
    assert -OctaveSemitones < r - f < OctaveSemitones;
  }
}
