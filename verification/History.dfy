/** What a model client remembers of each conversation, and of its own private replies. */
module History {
  import opened Options

  /** A window, its channel name already folded. */
  datatype Window = Status | Channel(name: string) | Direct(peer: string)

  type Event = int

  datatype Reply = Reply(window: Window, at: int, id: int)

  /** How loading a direct conversation on first sight of it can end. */
  datatype Load = Unsubscribed | Failed | Loaded(replies: seq<Reply>, scrollback: seq<Event>)

  const SIZE := 500

  // ----- The last of a sequence -----

  function Last<T>(s: seq<T>): seq<T> { if |s| <= SIZE then s else s[|s| - SIZE..] }

  lemma LastOfMore<T>(a: seq<T>, x: seq<T>)
    requires |x| >= SIZE
    ensures Last(a + x) == Last(x)
  {
    assert (a + x)[|a| + |x| - SIZE..] == x[|x| - SIZE..];
    assert |a + x| == SIZE ==> a + x == x;
  }

  lemma LastOfJoined<T>(s: seq<T>, t: seq<T>)
    ensures Last(Last(s) + t) == Last(s + t) && Last(s + Last(t)) == Last(s + t)
  {
    if |s| > SIZE {
      var a := s[..|s| - SIZE];
      assert s + t == a + (Last(s) + t);
      LastOfMore(a, Last(s) + t);
    }
    if |t| > SIZE {
      var b := t[..|t| - SIZE];
      assert s + t == s + b + Last(t);
      LastOfMore(s + b, Last(t));
      LastOfMore(s, Last(t));
    }
  }

  // ----- Stable order by time -----

  ghost predicate InTimeOrder(s: seq<Reply>) { forall i, j | 0 <= i < j < |s| :: s[i].at <= s[j].at }

  /** A reply put after every one that is not later than it. */
  function Insert(s: seq<Reply>, r: Reply): seq<Reply> {
    if s == [] || s[|s| - 1].at <= r.at then s + [r] else Insert(s[..|s| - 1], r) + [s[|s| - 1]]
  }

  /** The one order by time that keeps replies of equal time as they were. */
  function StableSorted(s: seq<Reply>): seq<Reply> {
    if s == [] then [] else Insert(StableSorted(s[..|s| - 1]), s[|s| - 1])
  }

  function OfWindow(s: seq<Reply>, w: Window): seq<Reply> {
    if s == [] then []
    else if s[|s| - 1].window == w then OfWindow(s[..|s| - 1], w) + [s[|s| - 1]]
    else OfWindow(s[..|s| - 1], w)
  }

  function AtTime(s: seq<Reply>, t: int): seq<Reply> {
    if s == [] then []
    else if s[|s| - 1].at == t then AtTime(s[..|s| - 1], t) + [s[|s| - 1]]
    else AtTime(s[..|s| - 1], t)
  }

  /** What each of the functions makes of one more reply. */
  lemma OneMore(s: seq<Reply>, x: Reply, r: Reply, w: Window, t: int)
    ensures OfWindow(s + [x], w) == if x.window == w then OfWindow(s, w) + [x] else OfWindow(s, w)
    ensures AtTime(s + [x], t) == if x.at == t then AtTime(s, t) + [x] else AtTime(s, t)
    ensures Insert(s + [x], r) == if x.at <= r.at then s + [x] + [r] else Insert(s, r) + [x]
    ensures StableSorted(s + [x]) == Insert(StableSorted(s), x)
  {
    assert (s + [x])[..|s|] == s;
  }

  lemma OneMoreInOrder(s: seq<Reply>, x: Reply)
    ensures InTimeOrder(s + [x]) <==> InTimeOrder(s) && forall y | y in s :: y.at <= x.at
  {
    var more := s + [x];
    assert forall i | 0 <= i < |s| :: more[i] == s[i];
    assert more[|s|] == x;
  }

  lemma {:induction false} InsertKeepsOrder(s: seq<Reply>, r: Reply)
    requires InTimeOrder(s)
    ensures InTimeOrder(Insert(s, r)) && multiset(Insert(s, r)) == multiset(s) + multiset{r}
  {
    if s == [] || s[|s| - 1].at <= r.at {
      OneMoreInOrder(s, r);
    } else {
      var before, last := s[..|s| - 1], s[|s| - 1];
      hide InTimeOrder;
      assert s == before + [last];
      OneMoreInOrder(before, last);
      InsertKeepsOrder(before, r);
      InsertHas(before, r);
      OneMoreInOrder(Insert(before, r), last);
    }
  }

  lemma {:induction false} InsertHas(s: seq<Reply>, r: Reply)
    ensures forall x :: x in Insert(s, r) <==> x in s || x == r
  {
    if s != [] && s[|s| - 1].at > r.at {
      InsertHas(s[..|s| - 1], r);
      assert s == s[..|s| - 1] + [s[|s| - 1]];
    }
  }

  lemma {:induction false} InsertKeepsTies(s: seq<Reply>, r: Reply, t: int)
    requires InTimeOrder(s)
    ensures AtTime(Insert(s, r), t) == if r.at == t then AtTime(s, t) + [r] else AtTime(s, t)
  {
    if s == [] || s[|s| - 1].at <= r.at {
      OneMore(s, r, r, Status, t);
    } else {
      var before, last := s[..|s| - 1], s[|s| - 1];
      InsertKeepsTies(before, r, t);
      assert s == before + [last];
      OneMore(before, last, r, Status, t);
      OneMore(Insert(before, r), last, r, Status, t);
      if r.at == t {
        OneMoreInOrder(before, last);
      }
    }
  }

  /** Sorting keeps every reply, orders them by time and leaves those of one time as they came. */
  lemma {:induction false} StableSortIsStable(s: seq<Reply>, t: int)
    ensures InTimeOrder(StableSorted(s)) && multiset(StableSorted(s)) == multiset(s)
    ensures AtTime(StableSorted(s), t) == AtTime(s, t)
  {
    if s != [] {
      var before, x := s[..|s| - 1], s[|s| - 1];
      hide InTimeOrder, Insert, AtTime, StableSorted;
      assert s == before + [x];
      StableSortIsStable(before, t);
      InsertKeepsOrder(StableSorted(before), x);
      InsertKeepsTies(StableSorted(before), x, t);
      OneMore(before, x, x, Status, t);
    }
  }

  lemma {:induction false} SortedStays(s: seq<Reply>)
    requires InTimeOrder(s)
    ensures StableSorted(s) == s
  {
    if s != [] {
      SortedStays(s[..|s| - 1]);
    }
  }

  lemma {:induction false} OfWindowInserted(s: seq<Reply>, r: Reply, w: Window)
    requires InTimeOrder(s)
    ensures OfWindow(Insert(s, r), w) == if r.window == w then Insert(OfWindow(s, w), r) else OfWindow(s, w)
  {
    hide InTimeOrder, OfWindow;
    if s == [] || s[|s| - 1].at <= r.at {
      OneMore(s, r, r, w, 0);
      LatestOfWindow(s, r, w);
    } else {
      var before, last := s[..|s| - 1], s[|s| - 1];
      assert s == before + [last];
      OneMoreInOrder(before, last);
      OfWindowInserted(before, r, w);
      OneMore(before, last, r, w, 0);
      OneMore(Insert(before, r), last, r, w, 0);
      OneMore(OfWindow(before, w), last, r, w, 0);
    }
  }

  lemma LatestOfWindow(s: seq<Reply>, r: Reply, w: Window)
    requires InTimeOrder(s) && (s == [] || s[|s| - 1].at <= r.at)
    ensures Insert(OfWindow(s, w), r) == OfWindow(s, w) + [r]
  {
    forall x | x in s
      ensures x.at <= r.at
    {
    }
    LastOfWindow(s, w, r.at);
  }

  lemma {:induction false} LastOfWindow(s: seq<Reply>, w: Window, t: int)
    requires forall x | x in s :: x.at <= t
    ensures forall x | x in OfWindow(s, w) :: x.at <= t && x.window == w && x in s
  {
    if s != [] {
      LastOfWindow(s[..|s| - 1], w, t);
    }
  }

  lemma {:induction false} SortingOneWindow(s: seq<Reply>, w: Window)
    ensures StableSorted(OfWindow(s, w)) == OfWindow(StableSorted(s), w)
  {
    if s != [] {
      var before, x := s[..|s| - 1], s[|s| - 1];
      assert s == before + [x];
      SortingOneWindow(before, w);
      StableSortIsStable(before, 0);
      OfWindowInserted(StableSorted(before), x, w);
      OneMore(before, x, x, w, 0);
      OneMore(OfWindow(before, w), x, x, w, 0);
    }
  }

  lemma {:induction false} InsertLength(s: seq<Reply>, r: Reply)
    ensures |Insert(s, r)| == |s| + 1
  {
    if s != [] && s[|s| - 1].at > r.at {
      InsertLength(s[..|s| - 1], r);
    }
  }

  predicate AllLater(s: seq<Reply>, r: Reply) { forall x | x in s :: x.at > r.at }

  /** A reply goes before a part that is all later than it, and otherwise into that part. */
  lemma {:induction false} InsertJoined(a: seq<Reply>, b: seq<Reply>, r: Reply)
    ensures Insert(a + b, r) == if AllLater(b, r) then Insert(a, r) + b else a + Insert(b, r)
  {
    hide Insert, AllLater;
    AllLaterMore(b, r);
    if b == [] {
      assert a + b == a && Insert(a, r) + b == Insert(a, r);
    } else {
      InsertJoined(a, b[..|b| - 1], r);
      InsertJoinedMore(a, b[..|b| - 1], b[|b| - 1], r);
      assert b == b[..|b| - 1] + [b[|b| - 1]];
    }
  }

  lemma InsertJoinedMore(a: seq<Reply>, b: seq<Reply>, last: Reply, r: Reply)
    requires Insert(a + b, r) == if AllLater(b, r) then Insert(a, r) + b else a + Insert(b, r)
    ensures Insert(a + (b + [last]), r) ==
            if AllLater(b, r) && last.at > r.at then Insert(a, r) + (b + [last]) else a + Insert(b + [last], r)
  {
    hide Insert, AllLater;
    InsertOneMore(a + b, last, r);
    InsertOneMore(b, last, r);
    Associate(a, b, [last]);
    Associate(a, b + [last], [r]);
    Associate(Insert(a, r), b, [last]);
    Associate(a, Insert(b, r), [last]);
  }

  lemma InsertOneMore(s: seq<Reply>, x: Reply, r: Reply)
    ensures Insert(s + [x], r) == if x.at <= r.at then s + [x] + [r] else Insert(s, r) + [x]
  {
    assert (s + [x])[..|s|] == s;
  }

  lemma Associate<T>(a: seq<T>, b: seq<T>, c: seq<T>)
    ensures a + (b + c) == a + b + c
  {
  }

  lemma AllLaterMore(b: seq<Reply>, r: Reply)
    ensures AllLater(b, r) <==> b == [] || (AllLater(b[..|b| - 1], r) && b[|b| - 1].at > r.at)
  {
    if b != [] {
      assert b == b[..|b| - 1] + [b[|b| - 1]];
    }
  }

  /** Of the latest, it does not matter whether the older ones were dropped before or after. */
  lemma LastOfInserted(s: seq<Reply>, r: Reply)
    ensures Last(Insert(Last(s), r)) == Last(Insert(s, r))
  {
    if |s| > SIZE {
      assert s == s[..|s| - SIZE] + s[|s| - SIZE..];
      hide Insert;
      LastOfJoinedInsert(s[..|s| - SIZE], s[|s| - SIZE..], r);
    }
  }

  lemma LastOfJoinedInsert(a: seq<Reply>, b: seq<Reply>, r: Reply)
    requires |b| == SIZE
    ensures Last(Insert(b, r)) == Last(Insert(a + b, r))
  {
    hide Insert, Last, AllLater;
    InsertJoined(a, b, r);
    InsertJoined([], b, r);
    InsertLength(b, r);
    InsertAlone(r);
    assert [] + b == b && [] + Insert(b, r) == Insert(b, r);
    LastPart(Insert(a, r), b);
    LastPart([r], b);
    LastOfMore(a, Insert(b, r));
  }

  lemma InsertAlone(r: Reply)
    ensures Insert([], r) == [r]
  {
  }

  lemma LastPart<T>(s: seq<T>, t: seq<T>)
    requires |t| == SIZE
    ensures Last(s + t) == t
  {
  }

  lemma NoneOfWindow(w: Window)
    ensures OfWindow([], w) == []
  {
  }

  lemma {:induction false} OfWindowJoined(s: seq<Reply>, t: seq<Reply>, w: Window)
    ensures OfWindow(s + t, w) == OfWindow(s, w) + OfWindow(t, w)
  {
    hide OfWindow, AtTime, Insert, StableSorted;
    if t == [] {
      NoneOfWindow(w);
      assert s + t == s;
    } else {
      var before, x := t[..|t| - 1], t[|t| - 1];
      OfWindowJoined(s, before, w);
      assert s + t == s + before + [x] && t == before + [x];
      OneMore(s + before, x, x, w, 0);
      OneMore(before, x, x, w, 0);
    }
  }

  lemma {:induction false} OneWindowInOrder(s: seq<Reply>, w: Window)
    requires InTimeOrder(s)
    ensures InTimeOrder(OfWindow(s, w))
  {
    if s != [] {
      var before, x := s[..|s| - 1], s[|s| - 1];
      OneWindowInOrder(before, w);
      LastOfWindow(before, w, x.at);
      OneMoreInOrder(OfWindow(before, w), x);
    }
  }

  function Without(s: seq<Reply>, w: Window): seq<Reply> {
    if s == [] then []
    else if s[|s| - 1].window == w then Without(s[..|s| - 1], w)
    else Without(s[..|s| - 1], w) + [s[|s| - 1]]
  }

  lemma {:induction false} WithoutWindow(s: seq<Reply>, w: Window, v: Window)
    ensures OfWindow(Without(s, w), v) == if v == w then [] else OfWindow(s, v)
    ensures forall x | x in Without(s, w) :: x in s
  {
    if s != [] {
      var before, x := s[..|s| - 1], s[|s| - 1];
      WithoutWindow(before, w, v);
      OneMore(Without(before, w), x, x, v, 0);
    }
  }

  lemma {:induction false} WithoutInOrder(s: seq<Reply>, w: Window)
    requires InTimeOrder(s)
    ensures InTimeOrder(Without(s, w))
  {
    if s != [] {
      var before, x := s[..|s| - 1], s[|s| - 1];
      WithoutInOrder(before, w);
      WithoutWindow(before, w, w);
      OneMoreInOrder(Without(before, w), x);
    }
  }

  /** In time order, and for each window the latest of what was heard there. */
  ghost predicate RepliesOk(replies: seq<Reply>, heard: seq<Reply>) {
    InTimeOrder(replies) && forall w :: OfWindow(replies, w) == Latest(heard, w)
  }

  function Latest(heard: seq<Reply>, w: Window): seq<Reply> { Last(StableSorted(OfWindow(heard, w))) }

  lemma NoneHeard()
    ensures RepliesOk([], [])
  {
  }

  lemma {:induction false} AllOfWindow(s: seq<Reply>, w: Window)
    requires forall x | x in s :: x.window == w
    ensures forall v :: OfWindow(s, v) == if v == w then s else []
  {
    if s != [] {
      AllOfWindow(s[..|s| - 1], w);
    }
  }

  lemma SeededAt(replies: seq<Reply>, heard: seq<Reply>, w: Window, entries: seq<Reply>, v: Window)
    requires RepliesOk(replies, heard) && |entries| <= SIZE && forall x | x in entries :: x.window == w
    ensures OfWindow(StableSorted(Without(replies, w) + entries), v) == Latest(Without(heard, w) + entries, v)
  {
    SortingOneWindow(Without(replies, w) + entries, v);
    OfWindowJoined(Without(replies, w), entries, v);
    OfWindowJoined(Without(heard, w), entries, v);
    AllOfWindow(entries, w);
    WithoutWindow(replies, w, v);
    WithoutWindow(heard, w, v);
    OneWindowInOrder(replies, v);
    SortedStays(OfWindow(replies, v));
    StableSortIsStable(entries, 0);
    hide InTimeOrder, StableSorted, OfWindow, Without;
    assert OfWindow(replies, v) == Latest(heard, v);
    if v == w {
      assert [] + entries == entries;
      assert |StableSorted(entries)| == |multiset(StableSorted(entries))| == |multiset(entries)| == |entries|;
    } else {
      assert OfWindow(replies, v) + [] == OfWindow(replies, v) && OfWindow(heard, v) + [] == OfWindow(heard, v);
    }
  }

  lemma Seeded(replies: seq<Reply>, heard: seq<Reply>, w: Window, entries: seq<Reply>)
    requires RepliesOk(replies, heard) && |entries| <= SIZE && forall x | x in entries :: x.window == w
    ensures RepliesOk(StableSorted(Without(replies, w) + entries), Without(heard, w) + entries)
  {
    StableSortIsStable(Without(replies, w) + entries, 0);
    forall v
      ensures OfWindow(StableSorted(Without(replies, w) + entries), v) == Latest(Without(heard, w) + entries, v)
    {
      SeededAt(replies, heard, w, entries, v);
    }
  }

  lemma Forgotten(replies: seq<Reply>, heard: seq<Reply>, w: Window)
    requires RepliesOk(replies, heard)
    ensures RepliesOk(Without(replies, w), Without(heard, w))
  {
    WithoutInOrder(replies, w);
    forall v
      ensures OfWindow(Without(replies, w), v) == Latest(Without(heard, w), v)
    {
      WithoutWindow(replies, w, v);
      WithoutWindow(heard, w, v);
    }
  }

  /** Drops the oldest reply of a window that has one too many, and nothing else. */
  method DropOldest(s: seq<Reply>, w: Window) returns (t: seq<Reply>)
    requires |OfWindow(s, w)| <= SIZE + 1
    ensures OfWindow(t, w) == Last(OfWindow(s, w)) && forall v | v != w :: OfWindow(t, v) == OfWindow(s, v)
    ensures InTimeOrder(s) ==> InTimeOrder(t)
    ensures t == s || exists i | 0 <= i < |s| :: t == s[..i] + s[i + 1..]
  {
    hide OfWindow, InTimeOrder;
    t := s;
    var i, matching := |s|, 0;
    NothingAfter(s, w);
    while i > 0
      invariant 0 <= i <= |s| && matching == |OfWindow(s[i..], w)| <= SIZE
      decreases i
    {
      i := i - 1;
      OneBefore(s, w, i);
      if s[i].window == w {
        matching := matching + 1;
        if matching > SIZE {
          DroppedAt(s, w, i);
          return s[..i] + s[i + 1..];
        }
      }
    }
    assert s[0..] == s;
  }

  lemma NothingAfter(s: seq<Reply>, w: Window)
    ensures OfWindow(s[|s|..], w) == []
  {
  }

  lemma OneBefore(s: seq<Reply>, w: Window, i: nat)
    requires i < |s|
    ensures OfWindow(s[i..], w) ==
            if s[i].window == w then [s[i]] + OfWindow(s[i + 1..], w) else OfWindow(s[i + 1..], w)
  {
    assert s[i..] == [s[i]] + s[i + 1..];
    OfWindowJoined([s[i]], s[i + 1..], w);
    assert [s[i]][..0] == [];
    assert [] + OfWindow(s[i + 1..], w) == OfWindow(s[i + 1..], w);
  }

  lemma DroppedAt(s: seq<Reply>, w: Window, i: nat)
    requires i < |s| && s[i].window == w && |OfWindow(s[i + 1..], w)| == SIZE && |OfWindow(s, w)| <= SIZE + 1
    ensures var t := s[..i] + s[i + 1..];
            && OfWindow(t, w) == Last(OfWindow(s, w)) && (forall v | v != w :: OfWindow(t, v) == OfWindow(s, v))
            && (InTimeOrder(s) ==> InTimeOrder(t))
  {
    hide OfWindow, Last;
    var t := s[..i] + s[i + 1..];
    forall v | v != w
      ensures OfWindow(t, v) == OfWindow(s, v)
    {
      OneLess(s, v, i);
    }
    OneLess(s, w, i);
    LastButOldest(OfWindow(s[..i], w), s[i], OfWindow(s[i + 1..], w));
  }

  lemma OneLess(s: seq<Reply>, w: Window, i: nat)
    requires i < |s|
    ensures var a, b := OfWindow(s[..i], w), OfWindow(s[i + 1..], w);
            && OfWindow(s[..i] + s[i + 1..], w) == a + b
            && OfWindow(s, w) == if s[i].window == w then a + ([s[i]] + b) else a + b
  {
    assert s == s[..i] + s[i..];
    OfWindowJoined(s[..i], s[i..], w);
    OfWindowJoined(s[..i], s[i + 1..], w);
    OneBefore(s, w, i);
    hide OfWindow;
  }

  lemma LastButOldest<T>(a: seq<T>, x: T, b: seq<T>)
    requires |b| == SIZE && |a + ([x] + b)| <= SIZE + 1
    ensures a + b == Last(a + ([x] + b))
  {
    assert a == [];
  }

  lemma Appended(replies: seq<Reply>, heard: seq<Reply>, r: Reply)
    requires RepliesOk(replies, heard)
    ensures var s := StableSorted(replies + [r]);
            && InTimeOrder(s) && |OfWindow(s, r.window)| <= SIZE + 1
            && Last(OfWindow(s, r.window)) == Latest(heard + [r], r.window)
            && forall v | v != r.window :: OfWindow(s, v) == Latest(heard + [r], v)
  {
    var s := StableSorted(replies + [r]);
    OneMore(replies, r, r, r.window, 0);
    SortedStays(replies);
    InsertKeepsOrder(replies, r);
    assert s == Insert(replies, r);
    forall v
      ensures OfWindow(s, v) == if v == r.window then Insert(Latest(heard, v), r) else Latest(heard, v)
      ensures v != r.window ==> Latest(heard + [r], v) == Latest(heard, v)
    {
      OfWindowInserted(replies, r, v);
      OneMore(heard, r, r, v, 0);
    }
    var of := OfWindow(heard, r.window);
    OneMore(heard, r, r, r.window, 0);
    OneMore(of, r, r, r.window, 0);
    LastOfInserted(StableSorted(of), r);
    InsertLength(Latest(heard, r.window), r);
  }

  // ----- The memory -----

  function At(m: map<Window, seq<Event>>, w: Window): seq<Event> { if w in m then m[w] else [] }

  /** Each buffer holds the last of what was recorded of its window; only direct
      conversations wait to be loaded. */
  ghost predicate Buffered(buf: map<Window, seq<Event>>, unseeded: map<Window, seq<Event>>,
                           told: map<Window, seq<Event>>)
  {
    && (forall w | w in buf :: w !in unseeded && buf[w] == Last(At(told, w)))
    && (forall w | w in unseeded :: w.Direct? && unseeded[w] == Last(At(told, w)))
    && (forall w | w !in buf && w !in unseeded :: At(told, w) == [])
  }

  lemma BufferedWith(buf: map<Window, seq<Event>>, unseeded: map<Window, seq<Event>>, told: map<Window, seq<Event>>,
                     w: Window, b: seq<Event>, all: seq<Event>)
    requires Buffered(buf, unseeded, told) && b == Last(all)
    ensures Buffered(buf[w := b], unseeded - {w}, told[w := all])
    ensures w !in buf && w.Direct? ==> Buffered(buf, unseeded[w := b], told[w := all])
  {
    hide Last;
  }

  lemma BufferedWithout(buf: map<Window, seq<Event>>, unseeded: map<Window, seq<Event>>, told: map<Window, seq<Event>>,
                        w: Window)
    requires Buffered(buf, unseeded, told)
    ensures Buffered(buf - {w}, unseeded - {w}, told - {w})
  {
    hide Last;
  }

  /** What a window remembers, loaded or not yet, is the last of what was recorded. */
  lemma HeldIsLast(buf: map<Window, seq<Event>>, unseeded: map<Window, seq<Event>>, told: map<Window, seq<Event>>,
                   w: Window)
    requires Buffered(buf, unseeded, told)
    ensures w in buf || (w !in unseeded && w !in buf) ==> At(buf, w) == Last(At(told, w))
    ensures w !in buf ==> At(unseeded, w) == Last(At(told, w))
    ensures w in buf || !w.Direct? ==> w !in unseeded
  {
  }

  class Memory {
    var buf: map<Window, seq<Event>>
    var unseeded: map<Window, seq<Event>>
    var replies: seq<Reply>
    /** All that was recorded of a window since it was last forgotten, its load first. */
    ghost var told: map<Window, seq<Event>>
    /** All the replies heard, in the order they came, but for windows forgotten or loaded since. */
    ghost var heard: seq<Reply>

    ghost predicate BuffersOk()
      reads this`buf, this`unseeded, this`told
    {
      Buffered(buf, unseeded, told)
    }

    ghost predicate Valid()
      reads this
    {
      BuffersOk() && RepliesOk(replies, heard)
    }

    constructor ()
      ensures Valid() && told == map[] && heard == []
    {
      buf, unseeded, replies, told, heard := map[], map[], [], map[], [];
      NoneHeard();
    }

    /** Fills a channel's buffer from what was loaded when the client attached. */
    method SeedChannel(w: Window, events: seq<Event>)
      requires BuffersOk() && !w.Direct? && |events| <= SIZE
      modifies this`buf, this`told
      ensures BuffersOk() && told == old(told)[w := events] && buf == old(buf)[w := events]
    {
      HeldIsLast(buf, unseeded, told, w);
      BufferedWith(buf, unseeded, told, w, events, events);
      assert unseeded - {w} == unseeded;
      hide Buffered;
      buf := buf[w := events];
      told := told[w := events];
    }

    method SeedReplies(w: Window, entries: seq<Reply>)
      requires RepliesOk(replies, heard) && |entries| <= SIZE && forall x | x in entries :: x.window == w
      modifies this`replies, this`heard
      ensures RepliesOk(replies, heard) && heard == Without(old(heard), w) + entries
    {
      Seeded(replies, heard, w, entries);
      replies := StableSorted(Without(replies, w) + entries);
      heard := Without(heard, w) + entries;
    }

    /** Keeps a private reply, dropping at most the oldest of the window it was asked in. */
    method AppendReply(r: Reply)
      requires RepliesOk(replies, heard)
      modifies this`replies, this`heard
      ensures RepliesOk(replies, heard) && heard == old(heard) + [r]
      ensures |replies| >= |old(replies)|
    {
      Appended(replies, heard, r);
      hide RepliesOk, StableSorted, OfWindow, Latest;
      var s := StableSorted(replies + [r]);
      var t := DropOldest(s, r.window);
      SortLength(replies + [r]);
      TrimmedIsOk(t, heard + [r]);
      replies, heard := t, heard + [r];
    }

    method Forget(w: Window)
      requires Valid()
      modifies this
      ensures Valid() && told == old(told) - {w} && heard == Without(old(heard), w)
    {
      Forgotten(replies, heard, w);
      BufferedWithout(buf, unseeded, told, w);
      hide RepliesOk, Buffered;
      buf, unseeded, told := buf - {w}, unseeded - {w}, told - {w};
      replies, heard := Without(replies, w), Without(heard, w);
    }

    /** Loads a direct conversation not seen before, its buffer and its replies together or neither. */
    method SeedDM(w: Window, load: Load) returns (ok: bool)
      requires Valid()
      requires load.Loaded? ==> |load.replies| <= SIZE && forall x | x in load.replies :: x.window == w
      modifies this
      ensures Valid() && (ok <==> w in old(buf) || !w.Direct? || load.Loaded?)
      ensures if ok && w !in old(buf) && w.Direct?
              then w in buf && told == old(told)[w := load.scrollback + At(old(told), w)]
                   && heard == Without(old(heard), w) + load.replies
              else buf == old(buf) && unseeded == old(unseeded) && told == old(told) && heard == old(heard)
    {
      hide RepliesOk, Buffered, Last;
      if w in buf || !w.Direct? {
        return true;
      }
      if !load.Loaded? {
        return false;
      }
      HeldIsLast(buf, unseeded, told, w);
      LastOfJoined(load.scrollback, At(told, w));
      var joined := Last(load.scrollback + At(unseeded, w));
      BufferedWith(buf, unseeded, told, w, joined, load.scrollback + At(told, w));
      buf := buf[w := joined];
      unseeded := unseeded - {w};
      told := told[w := load.scrollback + At(told, w)];
      SeedReplies(w, load.replies);
      return true;
    }

    /** Records a live event, after the load its window may still need. */
    method Append(w: Window, e: Event, load: Load) returns (ok: bool)
      requires Valid()
      requires load.Loaded? ==> |load.replies| <= SIZE && forall x | x in load.replies :: x.window == w
      modifies this
      ensures Valid() && (ok <==> w in old(buf) || !w.Direct? || load.Loaded?)
      ensures var loads := w.Direct? && w !in old(buf) && load.Loaded?;
              && told == old(told)[w := (if loads then load.scrollback else []) + At(old(told), w) + [e]]
              && heard == if loads then Without(old(heard), w) + load.replies else old(heard)
    {
      hide RepliesOk, Buffered;
      ok := SeedDM(w, load);
      assert [] + At(old(told), w) == At(old(told), w);
      Record(w, e, ok);
    }

    /** One more event for a loaded window, or for one still waiting to be loaded. */
    method Record(w: Window, e: Event, seeded: bool)
      requires BuffersOk() && (if seeded then w in buf || !w.Direct? else w !in buf && w.Direct?)
      modifies this`buf, this`unseeded, this`told
      ensures BuffersOk() && told == old(told)[w := At(old(told), w) + [e]]
    {
      HeldIsLast(buf, unseeded, told, w);
      LastOfJoined(At(told, w), [e]);
      hide Buffered, Last;
      var held := Last((if seeded then At(buf, w) else At(unseeded, w)) + [e]);
      BufferedWith(buf, unseeded, told, w, held, At(told, w) + [e]);
      if seeded {
        assert unseeded - {w} == unseeded;
        buf := buf[w := held];
      } else {
        unseeded := unseeded[w := held];
      }
      told := told[w := At(told, w) + [e]];
    }

    /** Keeps another event of a burst whose first could not load its conversation. */
    method AppendAfterSeedFailure(w: Window, e: Event)
      requires BuffersOk() && w.Direct?
      modifies this`buf, this`unseeded, this`told
      ensures BuffersOk() && told == old(told)[w := At(old(told), w) + [e]]
    {
      Record(w, e, w in buf);
    }
  }

  lemma SortLength(s: seq<Reply>)
    ensures |StableSorted(s)| == |s|
  {
    StableSortIsStable(s, 0);
    assert |multiset(StableSorted(s))| == |multiset(s)|;
  }

  lemma TrimmedIsOk(t: seq<Reply>, heard: seq<Reply>)
    requires InTimeOrder(t) && forall v :: OfWindow(t, v) == Latest(heard, v)
    ensures RepliesOk(t, heard)
  {
  }
}
