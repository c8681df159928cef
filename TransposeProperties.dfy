/** What auto-transposition promises: the histogram counts every note once,
    the penalty of a rotation is the number of notes it puts on black keys,
    and the chosen shift is the best of all transpositions, the smallest and
    then the downward one winning ties. */
module TransposeProperties {
  import opened Wrappers
  import opened Pitches
  import opened Notes
  import opened Transpose

  lemma {:induction false} SumIncrement(h: seq<int>, c: int)
    requires 0 <= c < |h|
    ensures Sum(h[c := h[c] + 1]) == Sum(h) + 1
    decreases |h|
  {
    var h' := h[c := h[c] + 1];
    if c < |h| - 1 {
      assert h'[..|h'| - 1] == h[..|h| - 1][c := h[c] + 1];
      SumIncrement(h[..|h| - 1], c);
    } else {
      assert h'[..|h'| - 1] == h[..|h| - 1];
    }
  }

  lemma {:induction false} SumOfZeros(z: seq<int>)
    requires forall c :: 0 <= c < |z| ==> z[c] == 0
    ensures Sum(z) == 0
  {
    if z != [] {
      SumOfZeros(z[..|z| - 1]);
    }
  }

  /** Every note is counted in exactly one bin. */
  lemma {:induction false} HistogramCountsEveryNote(notes: seq<Note>)
    ensures Sum(Histogram(notes)) == |notes|
  {
    if notes == [] {
      SumOfZeros(Histogram(notes));
    } else {
      var init := notes[..|notes| - 1];
      HistogramCountsEveryNote(init);
      SumIncrement(Histogram(init), PitchClass(notes[|notes| - 1].pitch));
    }
  }

  /** Rotation `r` stands for a shift congruent to `-r`. */
  lemma DistanceIsNegatedRotation(r: int)
    requires 0 <= r < Bins
    ensures -6 <= Distance[r] <= 5
    ensures (Distance[r] + r) % OctaveSemitones == 0
  {
  }

  /** The mask marks exactly the classes with no letter name. */
  lemma MaskMarksAccidentals(x: int)
    requires 0 <= x < Bins
    ensures Mask[x] == 1 <==> NoteNames[x] == '_'
    ensures Mask[x] == 0 || Mask[x] == 1
  {
  }

  /** One more note in class `c` adds the mask entry that rotation `r`
      reads for that class. */
  lemma {:induction false} PartialPenaltyIncrement(h: seq<int>, c: int, r: int, m: nat)
    requires |h| == Bins && 0 <= c < Bins && m <= Bins
    ensures PartialPenalty(h[c := h[c] + 1], Mask, r, m)
         == PartialPenalty(h, Mask, r, m) + (if (c - r) % Bins < m then Mask[(c - r) % Bins] else 0)
  {
    if m > 0 {
      PartialPenaltyIncrement(h, c, r, m - 1);
      var j := m - 1;
      var k := (j + r) % Bins;
      RotatedIndex(j, c, r);
      if k == c {
        assert Mask[j] * (h[k] + 1) == Mask[j] * h[k] + Mask[j];
      }
    }
  }

  lemma RotatedIndex(j: int, c: int, r: int)
    requires 0 <= j < Bins && 0 <= c < Bins
    ensures (j + r) % Bins == c <==> j == (c - r) % Bins
  {
    var q := (j + r) / Bins;
    assert j + r == Bins * q + (j + r) % Bins;
    var q' := (c - r) / Bins;
    assert c - r == Bins * q' + (c - r) % Bins;
  }

  lemma PitchClassPeriodic(x: int, y: int)
    requires (x - y) % OctaveSemitones == 0
    ensures PitchClass(x) == PitchClass(y)
  {
    var d := (x - y) / OctaveSemitones;
    assert x - y == OctaveSemitones * d;
    assert x - ReferenceA == (y - ReferenceA) + OctaveSemitones * d;
  }

  /** Moving a pitch by `shift` lands on the class that rotation `r` reads. */
  lemma ShiftedClass(pitch: int, r: int)
    requires 0 <= r < Bins
    ensures PitchClass(pitch + Distance[r]) == (PitchClass(pitch) - r) % Bins
  {
    DistanceIsNegatedRotation(r);
  }

  /** The penalty of rotation `r` is the number of notes that have no
      letter name once the tune is moved by `distance[r]`. */
  lemma {:induction false} PenaltyCountsAccidentals(notes: seq<Note>, r: int)
    requires 0 <= r < Bins
    ensures Penalty(Histogram(notes), Mask, r) == Accidentals(notes, Distance[r])
  {
    if notes == [] {
      var z := Histogram(notes);
      assert forall m :: 0 <= m <= Bins ==> PartialPenalty(z, Mask, r, m) == 0 by {
        forall m | 0 <= m <= Bins
          ensures PartialPenalty(z, Mask, r, m) == 0
        {
          ZeroPenalty(z, r, m);
        }
      }
    } else {
      var init := notes[..|notes| - 1];
      var p := notes[|notes| - 1].pitch;
      var c := PitchClass(p);
      PenaltyCountsAccidentals(init, r);
      PartialPenaltyIncrement(Histogram(init), c, r, Bins);
      ShiftedClass(p, r);
      MaskMarksAccidentals((c - r) % Bins);
    }
  }

  lemma {:induction false} ZeroPenalty(z: seq<int>, r: int, m: nat)
    requires |z| == Bins && m <= Bins
    requires forall c :: 0 <= c < Bins ==> z[c] == 0
    ensures PartialPenalty(z, Mask, r, m) == 0
  {
    if m > 0 {
      ZeroPenalty(z, r, m - 1);
    }
  }

  /** Shifts that differ by whole octaves put the same notes on black keys. */
  lemma {:induction false} AccidentalsPeriodic(notes: seq<Note>, s: int, t: int)
    requires (s - t) % OctaveSemitones == 0
    ensures Accidentals(notes, s) == Accidentals(notes, t)
  {
    if notes != [] {
      AccidentalsPeriodic(notes[..|notes| - 1], s, t);
      var p := notes[|notes| - 1].pitch;
      PitchClassPeriodic(p + s, p + t);
    }
  }

  /** The rotation that stands for shift `t` in [-6, 5]. */
  lemma RotationOf(t: int) returns (r: int)
    requires -6 <= t <= 5
    ensures 0 <= r < Bins && Distance[r] == t
  {
    r := (-t) % Bins;
  }

  /** Two rotations of equal |distance| are a shift and its negation, and the
      lower rotation is the downward one. */
  lemma EqualReachIsDownwardFirst(a: int, b: int)
    requires 0 <= a < b < Bins
    requires Abs(Distance[a]) == Abs(Distance[b])
    ensures Distance[a] < 0 < Distance[b] && Distance[a] == -Distance[b]
  {
  }

  /** The candidate order as a strict total order on shifts in [-6, 5]:
      fewer accidentals first, then the smaller move, then the downward one. */
  predicate Prefers(notes: seq<Note>, s: int, t: int)
  {
    Accidentals(notes, s) < Accidentals(notes, t)
    || (Accidentals(notes, s) == Accidentals(notes, t)
        && (Abs(s) < Abs(t) || (Abs(s) == Abs(t) && s <= t)))
  }

  /** The rotation `autotranspose` picks for a non-empty tune. */
  function Best(notes: seq<Note>): (b: nat)
    requires notes != []
    ensures b < Bins
  {
    FirstMin(Candidates(Histogram(notes)))
  }

  /** The result of `autotranspose` in terms of the chosen rotation. */
  lemma SolveIsBest(notes: seq<Note>)
    requires notes != []
    ensures Solve(notes)
         == Ok((Distance[Best(notes)], Score(|notes|, Accidentals(notes, Distance[Best(notes)]))))
  {
    var cs := Candidates(Histogram(notes));
    PenaltyCountsAccidentals(notes, Best(notes));
    assert cs[Best(notes)].1 == Penalty(Histogram(notes), Mask, Best(notes));
  }

  lemma BestBeatsEveryShift(notes: seq<Note>, t: int)
    requires notes != []
    ensures Accidentals(notes, Distance[Best(notes)]) <= Accidentals(notes, t)
  {
    var cs := Candidates(Histogram(notes));
    var b := Best(notes);
    var r := (-t) % Bins;
    DistanceIsNegatedRotation(r);
    AccidentalsPeriodic(notes, t, Distance[r]);
    PenaltyCountsAccidentals(notes, r);
    PenaltyCountsAccidentals(notes, b);
    assert KeyLe(cs[b], cs[r]);
  }

  lemma BestIsPreferred(notes: seq<Note>, t: int)
    requires notes != [] && -6 <= t <= 5
    ensures Prefers(notes, Distance[Best(notes)], t)
  {
    var cs := Candidates(Histogram(notes));
    var b := Best(notes);
    var r := RotationOf(t);
    PenaltyCountsAccidentals(notes, r);
    PenaltyCountsAccidentals(notes, b);
    assert KeyLe(cs[b], cs[r]);
    if r < b {
      assert !KeyLe(cs[r], cs[b]);
    } else if b < r && Abs(Distance[b]) == Abs(t) {
      EqualReachIsDownwardFirst(b, r);
    }
  }

  /** `autotranspose` fails exactly on an empty tune, by dividing by zero. */
  lemma AutotransposeFailsOnlyWhenEmpty(notes: seq<Note>)
    ensures Solve(notes).Err? <==> notes == []
    ensures Solve(notes).Err? ==> Solve(notes).fault == DivisionByZero
  {
    if notes != [] {
      SolveIsBest(notes);
    }
  }

  /** On a non-empty tune no transposition by any number of semitones leaves
      fewer notes on black keys than the returned shift; among shifts in
      [-6, 5] with as few, it is the smallest move, downward before upward. */
  lemma AutotransposeIsOptimal(notes: seq<Note>)
    requires notes != []
    ensures Solve(notes).Ok? && -6 <= Solve(notes).value.0 <= 5
    ensures forall t :: Accidentals(notes, Solve(notes).value.0) <= Accidentals(notes, t)
    ensures forall t :: -6 <= t <= 5 ==> Prefers(notes, Solve(notes).value.0, t)
  {
    SolveIsBest(notes);
    DistanceIsNegatedRotation(Best(notes));
    forall t
      ensures Accidentals(notes, Distance[Best(notes)]) <= Accidentals(notes, t)
    {
      BestBeatsEveryShift(notes, t);
    }
    forall t | -6 <= t <= 5
      ensures Prefers(notes, Distance[Best(notes)], t)
    {
      BestIsPreferred(notes, t);
    }
  }

  /** The score is the fraction of notes that the returned shift puts on
      white keys, so it lies in [0, 1]. */
  lemma AutotransposeScore(notes: seq<Note>)
    requires notes != []
    ensures Solve(notes).Ok?
    ensures Solve(notes).value.1 == Score(|notes|, Accidentals(notes, Solve(notes).value.0))
    ensures 0.0 <= Solve(notes).value.1 <= 1.0
  {
    SolveIsBest(notes);
    ScoreIsFraction(|notes|, Accidentals(notes, Distance[Best(notes)]));
  }

  /** The division step of AutotransposeScore, kept apart from the large
      context of `Solve` where the solver cannot afford it. */
  lemma ScoreIsFraction(n: int, pen: int)
    requires 0 <= pen <= n && n > 0
    ensures 0.0 <= Score(n, pen) <= 1.0
  {
    var x := (n - pen) as real;
    var y := n as real;
    assert 0.0 <= x <= y;
    assert x / y <= y / y;
  }

  /** A tune made only of A's is left where it is, with a full score. */
  lemma AllAStaysPut(notes: seq<Note>)
    requires notes != []
    requires forall i :: 0 <= i < |notes| ==> PitchClass(notes[i].pitch) == 0
    ensures Solve(notes) == Ok((0, 1.0))
  {
    AllANoAccidentals(notes);
    SolveIsBest(notes);
    BestIsPreferred(notes, 0);
    var s := Distance[Best(notes)];
    assert s == 0 && Accidentals(notes, s) == 0;
    assert Score(|notes|, 0) == 1.0;
  }

  lemma {:induction false} AllANoAccidentals(notes: seq<Note>)
    requires forall i :: 0 <= i < |notes| ==> PitchClass(notes[i].pitch) == 0
    ensures Accidentals(notes, 0) == 0
  {
    if notes != [] {
      AllANoAccidentals(notes[..|notes| - 1]);
    }
  }
}
