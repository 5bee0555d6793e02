/** Names in the order the repository sorts them: by code point, which for UTF-8 is also by byte. */
module Names {
  predicate Below(a: string, b: string)
    decreases |b|
  {
    b != [] && (a == [] || a[0] < b[0] || (a[0] == b[0] && Below(a[1..], b[1..])))
  }

  lemma {:induction false} NotBelowItself(a: string)
    ensures !Below(a, a)
  {
    if a != [] {
      NotBelowItself(a[1..]);
    }
  }

  lemma {:induction false} BelowIsTotal(a: string, b: string)
    ensures Below(a, b) || a == b || Below(b, a)
    ensures !(Below(a, b) && Below(b, a))
    decreases |b|
  {
    if a != [] && b != [] {
      BelowIsTotal(a[1..], b[1..]);
      assert a == [a[0]] + a[1..] && b == [b[0]] + b[1..];
    }
  }

  lemma {:induction false} BelowIsTransitive(a: string, b: string, c: string)
    requires Below(a, b) && Below(b, c)
    ensures Below(a, c)
    decreases |c|
  {
    if a != [] && a[0] == b[0] == c[0] {
      BelowIsTransitive(a[1..], b[1..], c[1..]);
    }
  }

  predicate Sorted(names: seq<string>) { forall i, j | 0 <= i < j < |names| :: Below(names[i], names[j]) }

  predicate Least(n: string, names: set<string>) { n in names && forall o | o in names :: o == n || Below(n, o) }

  lemma {:induction false} LeastExists(names: set<string>)
    requires names != {}
    ensures exists n :: Least(n, names)
    decreases |names|
  {
    var n :| n in names;
    var rest := names - {n};
    if rest == {} {
      assert names == {n};
      assert Least(n, names);
    } else {
      LeastExists(rest);
      var l :| Least(l, rest);
      BelowIsTotal(n, l);
      if Below(n, l) {
        forall o | o in names
          ensures o == n || Below(n, o)
        {
          if o != n && o != l {
            BelowIsTransitive(n, l, o);
          }
        }
        assert Least(n, names);
      } else {
        forall o | o in names
          ensures o == l || Below(l, o)
        {
        }
        assert Least(l, names);
      }
    }
  }

  /** The names of a set in order. */
  ghost function InOrder(names: set<string>): (r: seq<string>)
    ensures Sorted(r) && |r| == |names| && forall n :: n in r <==> n in names
    decreases |names|
  {
    if names == {} then []
    else
      LeastExists(names);
      var n :| Least(n, names);
      var rest := InOrder(names - {n});
      assert forall o | o in rest :: Below(n, o);
      [n] + rest
  }
}
