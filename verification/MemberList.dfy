/** A channel's members in display order, with a map from identity beside them. */
module Members {
  import opened Names

  type Id = string
  type Nick = string

  datatype Modes = Modes(operator: bool, voice: bool)
  datatype Mode = OperatorMode | VoiceMode | OtherMode
  datatype Member = Member(id: Id, nick: Nick, modes: Modes)

  function Rank(m: Modes): nat { if m.operator then 2 else if m.voice then 1 else 0 }

  /** One privilege granted or taken away, the other left alone. */
  function With(m: Modes, flag: Mode, add: bool): Modes {
    match flag
    case OperatorMode => m.(operator := add)
    case VoiceMode => m.(voice := add)
    case OtherMode => m
  }

  /** Higher ranks first, then by nick, then by identity. */
  predicate Less(a: Member, b: Member) {
    if Rank(a.modes) != Rank(b.modes) then Rank(a.modes) > Rank(b.modes)
    else if a.nick != b.nick then Below(a.nick, b.nick)
    else Below(a.id, b.id)
  }

  predicate SamePlace(a: Member, b: Member) { Rank(a.modes) == Rank(b.modes) && a.nick == b.nick && a.id == b.id }

  lemma LessIsTotal(a: Member, b: Member)
    ensures Less(a, b) || SamePlace(a, b) || Less(b, a)
    ensures !(Less(a, b) && Less(b, a)) && (SamePlace(a, b) ==> !Less(a, b))
  {
    BelowIsTotal(a.nick, b.nick);
    BelowIsTotal(a.id, b.id);
    NotBelowItself(a.id);
  }

  lemma LessIsTransitive(a: Member, b: Member, c: Member)
    requires Less(a, b) && Less(b, c)
    ensures Less(a, c)
  {
    if a.nick == b.nick == c.nick && Rank(a.modes) == Rank(b.modes) == Rank(c.modes) {
      BelowIsTransitive(a.id, b.id, c.id);
    } else if Rank(a.modes) == Rank(b.modes) == Rank(c.modes) && Below(a.nick, b.nick) && Below(b.nick, c.nick) {
      BelowIsTransitive(a.nick, b.nick, c.nick);
      NotBelowItself(a.nick);
    }
  }

  ghost predicate Ordered(s: seq<Member>) { forall i, j | 0 <= i < j < |s| :: Less(s[i], s[j]) }

  // ----- The sorted set -----

  /** Where an element belongs, and whether one in its place is there already. */
  method Find(s: seq<Member>, m: Member) returns (i: nat, found: bool)
    requires Ordered(s)
    ensures i <= |s| && (forall k | 0 <= k < i :: Less(s[k], m)) && (forall k | i <= k < |s| :: !Less(s[k], m))
    ensures found <==> i < |s| && SamePlace(s[i], m)
  {
    hide Less;
    i := 0;
    var j := |s|;
    while i < j
      invariant 0 <= i <= j <= |s|
      invariant forall k | 0 <= k < i :: Less(s[k], m)
      invariant forall k | j <= k < |s| :: !Less(s[k], m)
    {
      var h := (i + j) / 2;
      if Less(s[h], m) {
        LessBefore(s, h, m);
        i := h + 1;
      } else {
        NotLessAfter(s, h, m);
        j := h;
      }
    }
    if i < |s| {
      LessIsTotal(s[i], m);
      LessIsTotal(m, s[i]);
    }
    found := i < |s| && !Less(m, s[i]);
  }

  lemma LessBefore(s: seq<Member>, h: nat, m: Member)
    requires Ordered(s) && h < |s| && Less(s[h], m)
    ensures forall k | 0 <= k <= h :: Less(s[k], m)
  {
    forall k | 0 <= k < h
      ensures Less(s[k], m)
    {
      LessIsTransitive(s[k], s[h], m);
    }
  }

  lemma NotLessAfter(s: seq<Member>, h: nat, m: Member)
    requires Ordered(s) && h < |s| && !Less(s[h], m)
    ensures forall k | h <= k < |s| :: !Less(s[k], m)
  {
    forall k | h < k < |s|
      ensures !Less(s[k], m)
    {
      if Less(s[k], m) {
        LessIsTransitive(s[h], s[k], m);
      }
    }
  }

  method Insert(s: seq<Member>, m: Member) returns (r: seq<Member>)
    requires Ordered(s)
    ensures Ordered(r) && forall x :: x in r <==> x == m || (x in s && !SamePlace(x, m))
  {
    var i, found := Find(s, m);
    if found {
      r := s[i := m];
      ReplacedInOrder(s, i, m);
    } else {
      r := s[..i] + [m] + s[i..];
      InsertedInOrder(s, i, m);
    }
  }

  method Remove(s: seq<Member>, m: Member) returns (r: seq<Member>)
    requires Ordered(s)
    ensures Ordered(r) && forall x :: x in r <==> x in s && !SamePlace(x, m)
  {
    var i, found := Find(s, m);
    if !found {
      NotThere(s, i, m);
      return s;
    }
    r := s[..i] + s[i + 1..];
    RemovedInOrder(s, i, m);
  }

  lemma SameOrder(a: Member, b: Member, x: Member)
    requires SamePlace(a, b)
    ensures (Less(x, a) <==> Less(x, b)) && (Less(a, x) <==> Less(b, x)) && (SamePlace(x, a) <==> SamePlace(x, b))
  {
  }

  lemma OnlyPlace(s: seq<Member>, i: nat, m: Member)
    requires Ordered(s) && i < |s| && SamePlace(s[i], m)
    ensures forall k | 0 <= k < |s| && k != i :: !SamePlace(s[k], m)
    ensures (forall k | 0 <= k < i :: Less(s[k], m)) && forall k | i < k < |s| :: Less(m, s[k])
  {
    forall k | 0 <= k < |s| && k != i
      ensures !SamePlace(s[k], m) && (k < i ==> Less(s[k], m)) && (i < k ==> Less(m, s[k]))
    {
      SameOrder(s[i], m, s[k]);
      LessIsTotal(s[k], s[i]);
      LessIsTotal(s[i], s[k]);
    }
  }

  lemma Separates(s: seq<Member>, i: nat, m: Member)
    requires Ordered(s) && i <= |s| && (i < |s| ==> !SamePlace(s[i], m) && !Less(s[i], m))
    requires forall k | 0 <= k < i :: Less(s[k], m)
    ensures forall k | i <= k < |s| :: Less(m, s[k])
    ensures forall k | 0 <= k < |s| :: !SamePlace(s[k], m)
  {
    forall k | 0 <= k < |s|
      ensures !SamePlace(s[k], m) && (i <= k ==> Less(m, s[k]))
    {
      LessIsTotal(s[k], m);
      if i < k {
        LessIsTotal(s[i], m);
        LessIsTransitive(m, s[i], s[k]);
        LessIsTotal(m, s[k]);
      }
    }
  }

  lemma ReplacedInOrder(s: seq<Member>, i: nat, m: Member)
    requires Ordered(s) && i < |s| && SamePlace(s[i], m)
    ensures Ordered(s[i := m]) && forall x :: x in s[i := m] <==> x == m || (x in s && !SamePlace(x, m))
  {
    OnlyPlace(s, i, m);
    hide Less, SamePlace;
    assert s[i := m][i] == m;
    forall x | x in s && !SamePlace(x, m)
      ensures x in s[i := m]
    {
      var k :| 0 <= k < |s| && s[k] == x;
      assert s[i := m][k] == x;
    }
  }

  lemma InsertedInOrder(s: seq<Member>, i: nat, m: Member)
    requires Ordered(s) && i <= |s| && (i < |s| ==> !SamePlace(s[i], m) && !Less(s[i], m))
    requires forall k | 0 <= k < i :: Less(s[k], m)
    ensures var r := s[..i] + [m] + s[i..]; Ordered(r) && forall x :: x in r <==> x == m || (x in s && !SamePlace(x, m))
  {
    Separates(s, i, m);
    hide Less, SamePlace;
    assert s == s[..i] + s[i..];
  }

  lemma NotThere(s: seq<Member>, i: nat, m: Member)
    requires Ordered(s) && i <= |s| && (i < |s| ==> !SamePlace(s[i], m) && !Less(s[i], m))
    requires forall k | 0 <= k < i :: Less(s[k], m)
    ensures forall x | x in s :: !SamePlace(x, m)
  {
    Separates(s, i, m);
  }

  lemma RemovedInOrder(s: seq<Member>, i: nat, m: Member)
    requires Ordered(s) && i < |s| && SamePlace(s[i], m)
    ensures var r := s[..i] + s[i + 1..]; Ordered(r) && forall x :: x in r <==> x in s && !SamePlace(x, m)
  {
    OnlyPlace(s, i, m);
    hide Less, SamePlace;
    assert s == s[..i] + [s[i]] + s[i + 1..];
  }

  // ----- The list -----

  class MemberList {
    var members: seq<Member>
    var byID: map<Id, Member>

    /** The sorted members are the values of the map, each under its own identity. */
    ghost predicate Valid()
      reads this
    {
      && Ordered(members) && (forall m :: m in members <==> m.id in byID && byID[m.id] == m)
      && forall id | id in byID :: byID[id].id == id
    }

    constructor ()
      ensures Valid() && byID == map[]
    {
      members, byID := [], map[];
    }

    /** Puts a member in the place of whatever has its identity. */
    method Put(m: Member)
      requires Valid()
      modifies this
      ensures Valid() && byID == old(byID)[m.id := m]
    {
      hide Less, Ordered;
      if m.id in byID {
        members := Remove(members, byID[m.id]);
      }
      members := Insert(members, m);
      byID := byID[m.id := m];
    }

    /** A newcomer has no privileges; one who was there keeps theirs. */
    method AddIdentity(id: Id, nick: Nick)
      requires Valid()
      modifies this
      ensures Valid()
      ensures byID ==
              old(byID)[id := Member(id, nick, if id in old(byID) then old(byID)[id].modes else Modes(false, false))]
    {
      var modes := if id in byID then byID[id].modes else Modes(false, false);
      Put(Member(id, nick, modes));
    }

    method RemoveID(id: Id)
      requires Valid()
      modifies this
      ensures Valid() && byID == old(byID) - {id}
    {
      hide Less, Ordered;
      if id in byID {
        members := Remove(members, byID[id]);
        byID := byID - {id};
      }
    }

    method SetModesID(id: Id, modes: Modes)
      requires Valid()
      modifies this
      ensures Valid() && byID == if id in old(byID) then old(byID)[id := old(byID)[id].(modes := modes)] else old(byID)
    {
      if id in byID {
        Put(byID[id].(modes := modes));
      }
    }

    method ApplyModeID(id: Id, flag: Mode, add: bool)
      requires Valid()
      modifies this
      ensures Valid()
      ensures byID.Keys == old(byID).Keys && byID - {id} == old(byID) - {id}
      ensures id in byID ==> byID[id] == old(byID)[id].(modes := With(old(byID)[id].modes, flag, add))
    {
      if id in byID {
        SetModesID(id, With(byID[id].modes, flag, add));
      }
    }

    method RenameID(id: Id, nick: Nick)
      requires Valid()
      modifies this
      ensures Valid() && byID == if id in old(byID) then old(byID)[id := old(byID)[id].(nick := nick)] else old(byID)
    {
      if id in byID {
        Put(byID[id].(nick := nick));
      }
    }

    /** The first member in display order whose nick folds to the same. */
    method GetByNick(fold: Nick -> Nick, nick: Nick) returns (found: bool, m: Member)
      requires Valid()
      ensures found <==> exists x :: x in members && fold(x.nick) == fold(nick)
      ensures found ==> m in members && fold(m.nick) == fold(nick) && byID[m.id] == m
      ensures found ==> forall x | x in members && fold(x.nick) == fold(nick) :: x == m || Less(m, x)
    {
      hide Less;
      m := Member("", "", Modes(false, false));
      for i := 0 to |members|
        invariant forall k | 0 <= k < i :: fold(members[k].nick) != fold(nick)
      {
        if fold(members[i].nick) == fold(nick) {
          return true, members[i];
        }
      }
      return false, m;
    }

    /** An independent list with the same members in the same order. */
    method Clone() returns (dst: MemberList)
      requires Valid()
      ensures fresh(dst) && dst.Valid() && dst.byID == byID && dst.members == members
    {
      hide Less;
      dst := new MemberList();
      for i := 0 to |members|
        invariant fresh(dst) && dst.Valid()
        invariant forall m :: m in dst.members <==> m in members[..i]
      {
        assert members[..i + 1] == members[..i] + [members[i]];
        NoneLikeIt(members, byID, i);
        dst.members := Insert(dst.members, members[i]);
        dst.byID := dst.byID[members[i].id := members[i]];
      }
      assert members[..|members|] == members;
      SortedIsUnique(members, dst.members);
      assert dst.byID == byID;
    }
  }

  lemma NoneLikeIt(s: seq<Member>, byID: map<Id, Member>, i: nat)
    requires i < |s| && Ordered(s) && forall m | m in s :: m.id in byID && byID[m.id] == m
    ensures forall m | m in s[..i] :: m.id != s[i].id && !SamePlace(m, s[i])
  {
    forall k | 0 <= k < i
      ensures s[k].id != s[i].id
    {
      LessIsTotal(s[k], s[i]);
    }
  }

  /** The display order is a matter of who the members are, not of how they came to be in the list. */
  lemma {:induction false} SortedIsUnique(s: seq<Member>, t: seq<Member>)
    requires Ordered(s) && Ordered(t) && forall m :: m in s <==> m in t
    ensures s == t
  {
    assert t != [] ==> t[0] in t;
    if s != [] {
      assert s[0] in s;
      FirstIsLeast(s, t);
      FirstIsLeast(t, s);
      LessIsTotal(s[0], t[0]);
      assert s[0] == t[0];
      forall m
        ensures m in s[1..] <==> m in t[1..]
      {
        RestIs(s, m);
        RestIs(t, m);
      }
      SortedIsUnique(s[1..], t[1..]);
      assert s == [s[0]] + s[1..] && t == [t[0]] + t[1..];
    }
  }

  lemma FirstIsLeast(s: seq<Member>, t: seq<Member>)
    requires s != [] && Ordered(s) && t != [] && t[0] in s
    ensures s[0] == t[0] || Less(s[0], t[0])
  {
  }

  lemma RestIs(s: seq<Member>, m: Member)
    requires s != [] && Ordered(s)
    ensures m in s[1..] <==> m in s && m != s[0]
  {
    LessIsTotal(s[0], s[0]);
    if m in s && m != s[0] {
      var i :| 0 <= i < |s| && s[i] == m;
      assert s[1..][i - 1] == m;
    }
  }
}
