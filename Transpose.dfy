/** Auto-transposition of read_notes.py: count the notes per pitch class,
    score each of the twelve rotations by how many notes it puts on black
    keys, and pick the rotation with the fewest, the smallest move winning
    ties. The piano in question has white keys only. */
module Transpose {
  import opened Wrappers
  import opened Pitches
  import opened Notes

  /** Number of pitch classes, the length of every histogram here. */
  const Bins: int := 12
  /** 1 on the classes (counted from A) that are black keys. */
  const Mask: seq<int> := [0, 1, 0, 0, 1, 0, 1, 0, 0, 1, 0, 1]
  /** The shift in semitones that rotation `r` stands for: `-r` folded into [-6, 5]. */
  const Distance: seq<int> := [0, -1, -2, -3, -4, -5, -6, 5, 4, 3, 2, 1]

  /** One candidate: (shift, penalty), the tuple the source sorts. */
  type Candidate = (int, int)

  function Abs(x: int): nat
  {
    if x < 0 then -x else x
  }

  function Sum(s: seq<int>): int
  {
    if s == [] then 0 else Sum(s[..|s| - 1]) + s[|s| - 1]
  }

  /** Σ over i < m of penalty[i] * freq[(i + rshift) mod n]. */
  function PartialPenalty(freq: seq<int>, penalty: seq<int>, rshift: int, m: nat): int
    requires |freq| == |penalty| && m <= |freq|
  {
    if m == 0 then 0
    else PartialPenalty(freq, penalty, rshift, m - 1) + penalty[m - 1] * freq[(m - 1 + rshift) % |freq|]
  }

  /** The penalty of rotation `rshift`: the whole sum. */
  function Penalty(freq: seq<int>, penalty: seq<int>, rshift: int): int
    requires |freq| == |penalty|
  {
    PartialPenalty(freq, penalty, rshift, |freq|)
  }

  /** `_apply_penalty`: the accumulating loop. The assertion "Not parallel"
      is its caller's obligation. */
  method ApplyPenalty(freq: seq<int>, penalty: seq<int>, rshift: int) returns (pen: int)
    requires |freq| == |penalty|
    ensures pen == Penalty(freq, penalty, rshift)
  {
    pen := 0;
    for i := 0 to |freq|
      invariant pen == PartialPenalty(freq, penalty, rshift, i)
    {
      var fIx := (i + rshift) % |freq|;
      pen := pen + penalty[i] * freq[fIx];
    }
  }

  /** How many notes fall in each pitch class. */
  function Histogram(notes: seq<Note>): (h: seq<int>)
    ensures |h| == Bins
    ensures forall c :: 0 <= c < Bins ==> h[c] >= 0
  {
    if notes == [] then seq(Bins, _ => 0)
    else
      var h := Histogram(notes[..|notes| - 1]);
      var c := PitchClass(notes[|notes| - 1].pitch);
      h[c := h[c] + 1]
  }

  /** Reference definition: the number of notes that land on a black key
      (a note with no letter name) when the tune is moved by `shift`. */
  function Accidentals(notes: seq<Note>, shift: int): (n: nat)
    ensures n <= |notes|
  {
    if notes == [] then 0
    else
      Accidentals(notes[..|notes| - 1], shift)
      + (if MidiPitchToName(notes[|notes| - 1].pitch + shift).None? then 1 else 0)
  }

  /** Python compares the sort keys (penalty, |shift|) as tuples. */
  predicate KeyLe(a: Candidate, b: Candidate)
  {
    a.1 < b.1 || (a.1 == b.1 && Abs(a.0) <= Abs(b.0))
  }

  /** The earliest candidate whose key is not above any other. */
  function FirstMin(s: seq<Candidate>): (b: nat)
    requires s != []
    ensures b < |s|
    ensures forall i :: 0 <= i < |s| ==> KeyLe(s[b], s[i])
    ensures forall i :: 0 <= i < b ==> !KeyLe(s[i], s[b])
  {
    if |s| == 1 then 0
    else
      var b := FirstMin(s[..|s| - 1]);
      assert forall i :: 0 <= i < |s| - 1 ==> s[..|s| - 1][i] == s[i];
      if KeyLe(s[b], s[|s| - 1]) then b else |s| - 1
  }

  /** Each candidate's key is not above the next one's (the keys are a
      total preorder, so this orders every pair). */
  predicate SortedByKey(s: seq<Candidate>)
  {
    forall i :: 0 <= i < |s| - 1 ==> KeyLe(s[i], s[i + 1])
  }

  /** Inserts after every candidate whose key is not above its own. */
  function InsertByKey(x: Candidate, s: seq<Candidate>): (r: seq<Candidate>)
    ensures |r| == |s| + 1
    ensures r[0] == if s != [] && KeyLe(s[0], x) then s[0] else x
  {
    if s == [] then [x]
    else if KeyLe(s[0], x) then [s[0]] + InsertByKey(x, s[1..])
    else [x] + s
  }

  /** Inserting into a sorted list keeps it sorted. */
  lemma {:induction false} InsertByKeySorted(x: Candidate, s: seq<Candidate>)
    requires SortedByKey(s)
    ensures SortedByKey(InsertByKey(x, s))
  {
    if s != [] && KeyLe(s[0], x) {
      var rest := InsertByKey(x, s[1..]);
      InsertByKeySorted(x, s[1..]);
      var r := [s[0]] + rest;
      forall i | 0 <= i < |r| - 1
        ensures KeyLe(r[i], r[i + 1])
      {
        if i > 0 {
          assert r[i] == rest[i - 1] && r[i + 1] == rest[i];
        }
      }
    }
  }

  /** Inserting adds exactly `x`. */
  lemma {:induction false} InsertByKeyPermutes(x: Candidate, s: seq<Candidate>)
    ensures multiset(InsertByKey(x, s)) == multiset(s) + multiset{x}
  {
    if s != [] && KeyLe(s[0], x) {
      var rest := InsertByKey(x, s[1..]);
      InsertByKeyPermutes(x, s[1..]);
      assert multiset([s[0]] + rest) == multiset([s[0]]) + multiset(rest);
      assert multiset(s) == multiset([s[0]]) + multiset(s[1..]) by {
        assert s == [s[0]] + s[1..];
      }
    } else {
      assert multiset([x] + s) == multiset([x]) + multiset(s);
    }
  }

  /** `list.sort(key=lambda sp: (sp[1], abs(sp[0])))`, stable: its head is
      the first candidate of least key. */
  function SortByKey(s: seq<Candidate>): (r: seq<Candidate>)
    ensures |r| == |s|
    ensures s != [] ==> r[0] == s[FirstMin(s)]
  {
    if s == [] then []
    else
      var init := s[..|s| - 1];
      assert s == init + [s[|s| - 1]];
      var sortedInit := SortByKey(init);
      if init == [] then InsertByKey(s[|s| - 1], sortedInit)
      else
        assert sortedInit[0] == s[FirstMin(init)];
        InsertByKey(s[|s| - 1], sortedInit)
  }

  /** The sort orders by key and is a permutation. */
  lemma {:induction false} SortByKeySorts(s: seq<Candidate>)
    ensures SortedByKey(SortByKey(s))
    ensures multiset(SortByKey(s)) == multiset(s)
  {
    if s != [] {
      var init := s[..|s| - 1];
      assert s == init + [s[|s| - 1]];
      SortByKeySorts(init);
      InsertByKeySorted(s[|s| - 1], SortByKey(init));
      InsertByKeyPermutes(s[|s| - 1], SortByKey(init));
    }
  }

  /** The twelve candidates (distance[r], penalty of rotation r). */
  function Candidates(freq: seq<int>): (cs: seq<Candidate>)
    requires |freq| == Bins
    ensures |cs| == Bins
  {
    seq(Bins, r requires 0 <= r < Bins => (Distance[r], Penalty(freq, Mask, r)))
  }

  /** `(len(notes) - best_penalty) / len(notes)`. */
  function Score(n: int, bestPenalty: int): real
    requires n != 0
  {
    (n - bestPenalty) as real / n as real
  }

  /** What `autotranspose` returns: the head of the sorted candidates and its
      score; an empty tune divides by zero. */
  function Solve(notes: seq<Note>): Result<(int, real)>
  {
    if notes == [] then Err(DivisionByZero)
    else
      var cs := Candidates(Histogram(notes));
      var best := cs[FirstMin(cs)];
      Ok((best.0, Score(|notes|, best.1)))
  }

  /** The first loop of `autotranspose`: one count per note, in a fresh
      array of twelve zeros. */
  method CountClasses(notes: seq<Note>) returns (freq: array<int>)
    ensures fresh(freq)
    ensures freq[..] == Histogram(notes)
  {
    freq := new int[Bins](_ => 0);
    assert freq[..] == Histogram(notes[..0]);
    for i := 0 to |notes|
      invariant freq[..] == Histogram(notes[..i])
    {
      var offset := PitchClass(notes[i].pitch);
      freq[offset] := freq[offset] + 1;
      assert notes[..i + 1][..i] == notes[..i];
    }
    assert notes[..|notes|] == notes;
  }

  /** The second loop of `autotranspose`: one candidate per rotation. */
  method ScoreRotations(freq: seq<int>) returns (shiftAndPen: seq<Candidate>)
    requires |freq| == Bins
    ensures shiftAndPen == Candidates(freq)
  {
    shiftAndPen := [];
    for rshift := 0 to Bins
      invariant shiftAndPen == Candidates(freq)[..rshift]
    {
      var pen := ApplyPenalty(freq, Mask, rshift);
      shiftAndPen := shiftAndPen + [(Distance[rshift], pen)];
    }
  }

  /** `autotranspose`: counts, scores, sorts the candidates and takes the first. */
  method Autotranspose(notes: seq<Note>) returns (r: Result<(int, real)>)
    ensures r == Solve(notes)
  {
    var freq := CountClasses(notes);
    var shiftAndPen := ScoreRotations(freq[..]);
    var sorted := SortByKey(shiftAndPen);
    var best := sorted[0];
    if |notes| == 0 {
      return Err(DivisionByZero);
    }
    r := Ok((best.0, Score(|notes|, best.1)));
  }
}
