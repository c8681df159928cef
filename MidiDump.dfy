/** The message list that `dump_midi_file` writes: the notes sorted by time,
    each one a note-on if its pitch is not held and a note-off if it is, with
    the time since the previous message. */
module MidiDump {
  import opened Notes
  import KeyModel

  datatype Kind = NoteOn | NoteOff

  /** Every message is written at full velocity. */
  const Velocity: int := 127

  /** One track message; the time is a delta in seconds (the conversion to
      ticks is not modelled). */
  datatype Message = Message(kind: Kind, note: int, velocity: int, deltaSeconds: real)

  /** How often pitch `p` occurs in `s`. */
  function Count(s: seq<Note>, p: int): (n: nat)
    ensures n <= |s|
  {
    if s == [] then 0
    else Count(s[..|s| - 1], p) + (if s[|s| - 1].pitch == p then 1 else 0)
  }

  /** The time of the message before position `i`; the first one is
      measured from zero. */
  function PrevTime(s: seq<Note>, i: nat): real
    requires i <= |s|
  {
    if i == 0 then 0.0 else s[i - 1].time
  }

  /** Reference definition of the track for notes already in time order:
      message `i` switches its pitch on exactly when that pitch occurs an
      even number of times before it. */
  function MessageAt(s: seq<Note>, i: nat): Message
    requires i < |s|
  {
    Message(if KeyModel.Odd(Count(s[..i], s[i].pitch)) then NoteOff else NoteOn,
            s[i].pitch, Velocity, s[i].time - PrevTime(s, i))
  }

  function Messages(s: seq<Note>): (r: seq<Message>)
    ensures |r| == |s|
    ensures forall i :: 0 <= i < |s| ==> r[i] == MessageAt(s, i)
  {
    seq(|s|, i requires 0 <= i < |s| => MessageAt(s, i))
  }

  lemma CountStep(s: seq<Note>, i: nat, p: int)
    requires i < |s|
    ensures Count(s[..i + 1], p) == Count(s[..i], p) + (if s[i].pitch == p then 1 else 0)
  {
    assert s[..i + 1][..i] == s[..i];
  }

  /** `held` is the set of pitches sounding after the first `i` notes. */
  ghost predicate Sounding(held: set<int>, s: seq<Note>, i: nat)
    requires i <= |s|
  {
    forall p :: p in held <==> KeyModel.Odd(Count(s[..i], p))
  }

  /** Adding a pitch that is not held and removing one that is keeps the
      held set equal to the pitches seen an odd number of times. */
  lemma HeldStep(held: set<int>, s: seq<Note>, i: nat)
    requires i < |s|
    requires Sounding(held, s, i)
    ensures MessageAt(s, i).kind == if s[i].pitch in held then NoteOff else NoteOn
    ensures var p := s[i].pitch;
      Sounding(if p in held then held - {p} else held + {p}, s, i + 1)
  {
    forall q
      ensures Count(s[..i + 1], q) == Count(s[..i], q) + (if s[i].pitch == q then 1 else 0)
    {
      CountStep(s, i, q);
    }
  }

  /** `dump_midi_file` without the file: sort by time, then pair. */
  method DumpMessages(notes: seq<Note>) returns (track: seq<Message>)
    ensures track == Messages(SortByTime(notes))
  {
    var sorted := SortByTime(notes);
    track := PairInOrder(sorted);
  }

  /** The loop of `dump_midi_file`: a set of held pitches and the time of the
      last message. */
  method PairInOrder(sorted: seq<Note>) returns (track: seq<Message>)
    ensures track == Messages(sorted)
  {
    var held: set<int> := {};
    var lastTime: real := 0.0;
    track := [];
    for i := 0 to |sorted|
      invariant |track| == i
      invariant forall j :: 0 <= j < i ==> track[j] == MessageAt(sorted, j)
      invariant Sounding(held, sorted, i)
      invariant lastTime == PrevTime(sorted, i)
    {
      var what, when := sorted[i].pitch, sorted[i].time;
      HeldStep(held, sorted, i);
      var kind;
      if what in held {
        kind := NoteOff;
        held := held - {what};
      } else {
        kind := NoteOn;
        held := held + {what};
      }
      var deltaSeconds := when - lastTime;
      lastTime := when;
      track := track + [Message(kind, what, Velocity, deltaSeconds)];
    }
  }

  /** Sum of the deltas of the first `m` messages. */
  function SumDeltas(track: seq<Message>, m: nat): real
    requires m <= |track|
  {
    if m == 0 then 0.0 else SumDeltas(track, m - 1) + track[m - 1].deltaSeconds
  }

  /** The deltas add up to the time of the last message: nothing is lost. */
  lemma {:induction false} DeltasTelescope(s: seq<Note>, m: nat)
    requires m <= |s|
    ensures SumDeltas(Messages(s), m) == PrevTime(s, m)
  {
    if m > 0 {
      DeltasTelescope(s, m - 1);
    }
  }

  /** In time order and from a non-negative start, no delta is negative. */
  lemma DeltasNonNegative(s: seq<Note>)
    requires SortedByTime(s)
    requires s != [] ==> s[0].time >= 0.0
    ensures forall i :: 0 <= i < |s| ==> Messages(s)[i].deltaSeconds >= 0.0
  {
  }

  /** A pitch's first message switches it on. */
  lemma FirstOccurrenceIsOn(s: seq<Note>, i: nat)
    requires i < |s|
    requires forall j :: 0 <= j < i ==> s[j].pitch != s[i].pitch
    ensures Messages(s)[i].kind == NoteOn
  {
    CountAbsent(s[..i], s[i].pitch);
  }

  lemma {:induction false} CountAbsent(s: seq<Note>, p: int)
    requires forall j :: 0 <= j < |s| ==> s[j].pitch != p
    ensures Count(s, p) == 0
  {
    if s != [] {
      CountAbsent(s[..|s| - 1], p);
    }
  }

  /** Two consecutive messages of the same pitch have opposite kinds, so
      every pitch goes on, off, on, off, ... */
  lemma ConsecutiveAlternate(s: seq<Note>, i: nat, j: nat)
    requires i < j < |s| && s[i].pitch == s[j].pitch
    requires forall k :: i < k < j ==> s[k].pitch != s[i].pitch
    ensures Messages(s)[i].kind != Messages(s)[j].kind
  {
    var p := s[i].pitch;
    CountBetween(s, i + 1, j, p);
    CountStep(s, i, p);
  }

  lemma {:induction false} CountBetween(s: seq<Note>, a: nat, b: nat, p: int)
    requires a <= b <= |s|
    requires forall k :: a <= k < b ==> s[k].pitch != p
    ensures Count(s[..b], p) == Count(s[..a], p)
    decreases b - a
  {
    if a < b {
      CountBetween(s, a, b - 1, p);
      CountStep(s, b - 1, p);
    }
  }

  /** The inverse of a key's timeline: dumping one key whose events are in
      time order and writing the track gives one message per event, in the
      same order, each press a note-on and each release a note-off. */
  lemma {:induction false} OneKeyRoundTrip(k: KeyModel.KeyState)
    requires forall i, j :: 0 <= i < j < |k.when| ==> k.when[i] <= k.when[j]
    ensures var track := Messages(SortByTime(KeyModel.Dump(k)));
      |track| == |k.when| && forall i :: 0 <= i < |track| ==> OneKeyMessage(k, track[i], i)
  {
    var d := KeyModel.Dump(k);
    assert SortedByTime(d) by {
      forall i, j | 0 <= i < j < |d|
        ensures d[i].time <= d[j].time
      {
        assert d[i].time == k.when[i] && d[j].time == k.when[j];
      }
    }
    SortSortedIsIdentity(d);
    var track := Messages(d);
    forall i | 0 <= i < |track|
      ensures OneKeyMessage(k, track[i], i)
    {
      OneKeyMessageAt(k, i);
    }
  }

  /** Message `i` of a single key's track: the key's pitch, on for an even
      `i` and off for an odd one, timed from the previous event. */
  ghost predicate OneKeyMessage(k: KeyModel.KeyState, m: Message, i: nat)
    requires i < |k.when|
  {
    && m.note == k.pitch
    && m.kind == (if i % 2 == 0 then NoteOn else NoteOff)
    && m.deltaSeconds == k.when[i] - (if i == 0 then 0.0 else k.when[i - 1])
  }

  lemma OneKeyMessageAt(k: KeyModel.KeyState, i: nat)
    requires i < |k.when|
    ensures OneKeyMessage(k, MessageAt(KeyModel.Dump(k), i), i)
  {
    var d := KeyModel.Dump(k);
    CountAll(d[..i], k.pitch);
    assert KeyModel.Odd(Count(d[..i], k.pitch)) <==> i % 2 != 0;
  }

  lemma {:induction false} CountAll(s: seq<Note>, p: int)
    requires forall j :: 0 <= j < |s| ==> s[j].pitch == p
    ensures Count(s, p) == |s|
  {
    if s != [] {
      CountAll(s[..|s| - 1], p);
    }
  }
}
