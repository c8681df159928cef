/** Decoded notes as (pitch, time) pairs, and the stable sort by time that
    both the enqueue and the MIDI dump apply before walking the notes. */
module Notes {

  /** One toggle of one pitch at an absolute time in seconds. */
  datatype Note = Note(pitch: int, time: real)

  predicate SortedByTime(s: seq<Note>)
  {
    forall i, j :: 0 <= i < j < |s| ==> s[i].time <= s[j].time
  }

  /** Inserts `n` after every element whose time is not later than its own,
      which keeps notes of equal time in their original order. */
  function Insert(n: Note, s: seq<Note>): (r: seq<Note>)
    requires SortedByTime(s)
    ensures SortedByTime(r)
    ensures multiset(r) == multiset(s) + multiset{n}
    ensures |r| == |s| + 1
    ensures r[0] == if s != [] && s[0].time <= n.time then s[0] else n
  {
    if s == [] then [n]
    else if s[0].time <= n.time then
      var rest := Insert(n, s[1..]);
      assert s == [s[0]] + s[1..];
      assert multiset(s) == multiset{s[0]} + multiset(s[1..]);
      SortedCons(s[0], rest);
      [s[0]] + rest
    else
      SortedCons(n, s);
      [n] + s
  }

  /** A note no later than the head of a sorted sequence can go in front. */
  lemma SortedCons(n: Note, s: seq<Note>)
    requires SortedByTime(s)
    requires s != [] ==> n.time <= s[0].time
    ensures SortedByTime([n] + s)
  {
    forall i, j | 0 <= i < j < |s| + 1
      ensures ([n] + s)[i].time <= ([n] + s)[j].time
    {
      if i == 0 {
        assert s[0].time <= s[j - 1].time;
      }
    }
  }

  /** Python's `sorted(notes, key=time)`: an insertion sort that is stable. */
  function SortByTime(s: seq<Note>): (r: seq<Note>)
    ensures SortedByTime(r)
    ensures multiset(r) == multiset(s)
    ensures |r| == |s|
  {
    if s == [] then []
    else
      assert s == s[..|s| - 1] + [s[|s| - 1]];
      Insert(s[|s| - 1], SortByTime(s[..|s| - 1]))
  }

  /** A note no earlier than everything before it goes to the end. */
  lemma {:induction false} InsertLast(n: Note, s: seq<Note>)
    requires SortedByTime(s)
    requires forall i :: 0 <= i < |s| ==> s[i].time <= n.time
    ensures Insert(n, s) == s + [n]
  {
    if s != [] {
      InsertLast(n, s[1..]);
      assert [s[0]] + (s[1..] + [n]) == s + [n];
    }
  }

  /** The notes of `s` at time `t`, in their order in `s`. */
  function AtTime(s: seq<Note>, t: real): seq<Note>
  {
    if s == [] then []
    else (if s[0].time == t then [s[0]] else []) + AtTime(s[1..], t)
  }

  /** One unfolding of `AtTime` on a sequence with head `n`. */
  lemma AtTimeCons(n: Note, s: seq<Note>, t: real)
    ensures AtTime([n] + s, t) == (if n.time == t then [n] else []) + AtTime(s, t)
  {
    assert ([n] + s)[0] == n;
    assert ([n] + s)[1..] == s;
  }

  lemma {:induction false} AtTimeAppend(a: seq<Note>, b: seq<Note>, t: real)
    ensures AtTime(a + b, t) == AtTime(a, t) + AtTime(b, t)
  {
    if a == [] {
      assert a + b == b;
    } else {
      AtTimeAppend(a[1..], b, t);
      assert a + b == [a[0]] + (a[1..] + b);
      AtTimeCons(a[0], a[1..] + b, t);
      assert a == [a[0]] + a[1..];
      AtTimeCons(a[0], a[1..], t);
    }
  }

  /** A sorted sequence that starts after `t` has no note at `t`. */
  lemma {:induction false} AtTimeLater(s: seq<Note>, t: real)
    requires SortedByTime(s)
    requires s != [] ==> s[0].time > t
    ensures AtTime(s, t) == []
  {
    if s != [] {
      assert SortedByTime(s[1..]);
      if |s| > 1 {
        assert s[0].time <= s[1].time;
      }
      AtTimeLater(s[1..], t);
    }
  }

  /** Inserting `n` puts it after every note of its own time already there. */
  lemma {:induction false} InsertAtTime(n: Note, s: seq<Note>, t: real)
    requires SortedByTime(s)
    ensures AtTime(Insert(n, s), t) == AtTime(s, t) + AtTime([n], t)
  {
    AtTimeCons(n, [], t);
    assert [n] + [] == [n];
    if s == [] {
      assert Insert(n, s) == [n];
    } else if s[0].time <= n.time {
      assert SortedByTime(s[1..]);
      InsertAtTime(n, s[1..], t);
      InsertAfterHead(n, s, t);
    } else {
      assert Insert(n, s) == [n] + s;
      AtTimeCons(n, s, t);
      if n.time == t {
        AtTimeLater(s, t);
      }
    }
  }

  /** The step of InsertAtTime where `n` goes past the head of `s`. */
  lemma InsertAfterHead(n: Note, s: seq<Note>, t: real)
    requires SortedByTime(s) && s != [] && s[0].time <= n.time
    requires AtTime(Insert(n, s[1..]), t) == AtTime(s[1..], t) + AtTime([n], t)
    ensures AtTime(Insert(n, s), t) == AtTime(s, t) + AtTime([n], t)
  {
    InsertPastHead(n, s);
    ConsAtTime(s[0], Insert(n, s[1..]), AtTime(s[1..], t), AtTime([n], t), t);
    HeadSplit(s, t);
  }

  lemma ConsAtTime(h: Note, rest: seq<Note>, mid: seq<Note>, tail: seq<Note>, t: real)
    requires AtTime(rest, t) == mid + tail
    ensures AtTime([h] + rest, t) == (AtTime([h], t) + mid) + tail
  {
    AtTimeAppend([h], rest, t);
    Associative(AtTime([h], t), mid, tail);
  }

  lemma HeadSplit(s: seq<Note>, t: real)
    requires s != []
    ensures AtTime(s, t) == AtTime([s[0]], t) + AtTime(s[1..], t)
  {
    AtTimeAppend([s[0]], s[1..], t);
    assert [s[0]] + s[1..] == s;
  }

  lemma InsertPastHead(n: Note, s: seq<Note>)
    requires SortedByTime(s) && s != [] && s[0].time <= n.time
    ensures Insert(n, s) == [s[0]] + Insert(n, s[1..])
  {
  }

  lemma Associative(a: seq<Note>, b: seq<Note>, c: seq<Note>)
    ensures a + (b + c) == (a + b) + c
  {
  }

  /** The sort is stable: the notes of any one time keep their input order. */
  lemma {:induction false} SortIsStable(s: seq<Note>, t: real)
    ensures AtTime(SortByTime(s), t) == AtTime(s, t)
  {
    if s != [] {
      var init, last := s[..|s| - 1], s[|s| - 1];
      assert SortByTime(s) == Insert(last, SortByTime(init));
      SortIsStable(init, t);
      InsertAtTime(last, SortByTime(init), t);
      assert s == init + [last];
      AtTimeAppend(init, [last], t);
    }
  }

  /** Sorting what is already in time order changes nothing. */
  lemma {:induction false} SortSortedIsIdentity(s: seq<Note>)
    requires SortedByTime(s)
    ensures SortByTime(s) == s
  {
    if s != [] {
      var init := s[..|s| - 1];
      assert SortedByTime(init);
      SortSortedIsIdentity(init);
      InsertLast(s[|s| - 1], init);
      assert init + [s[|s| - 1]] == s;
    }
  }
}
