/** What the books of a burst mean, delivery by delivery. */
module BurstLaws {
  import opened Redispatch

  predicate Rising(at: seq<nat>) { forall i, j | 0 <= i < j < |at| :: at[i] < at[j] }

  /** The delivery at `i` raises a turn in the window, and the window is not closed after it. */
  predicate Counts(ds: seq<Delivery>, ch: Channel, i: nat) {
    i < |ds| && ds[i].Raises? && ds[i].channel == ch && forall j | i < j < |ds| :: ds[j] != Closes(ch)
  }

  lemma CountsMore(ds: seq<Delivery>, d: Delivery, ch: Channel, i: nat)
    ensures Counts(ds + [d], ch, i) <==>
              if i < |ds| then Counts(ds, ch, i) && d != Closes(ch) else i == |ds| && d.Raises? && d.channel == ch
  {
    var more := ds + [d];
    assert more[|ds|] == d;
    assert forall j | 0 <= j < |ds| :: more[j] == ds[j];
  }

  /** A window's triggers are those the burst raised for it since it last closed it, each once and in order. */
  lemma {:induction false} TriggersSinceClosed(ds: seq<Delivery>, ch: Channel) returns (at: seq<nat>)
    ensures Rising(at) && |at| == |TriggersFor(ds, ch)|
    ensures forall i: nat :: i in at <==> Counts(ds, ch, i)
    ensures forall k | 0 <= k < |at| :: at[k] < |ds| && ds[at[k]] == Raises(ch, TriggersFor(ds, ch)[k])
  {
    if ds == [] {
      return [];
    }
    var before, d := ds[..|ds| - 1], ds[|ds| - 1];
    assert ds == before + [d];
    at := TriggersSinceClosed(before, ch);
    forall i: nat
      ensures Counts(ds, ch, i) <==>
                if i < |before| then Counts(before, ch, i) && d != Closes(ch)
                else i == |before| && d.Raises? && d.channel == ch
    {
      CountsMore(before, d, ch, i);
    }
    hide Counts;
    if d == Closes(ch) {
      at := [];
    } else if d.Raises? && d.channel == ch {
      at := at + [|before|];
    }
  }

  /** A burst leaves a window closed exactly if it closed it and did not open it after that. */
  lemma {:induction false} LeftClosedExactly(ds: seq<Delivery>, ch: Channel)
    ensures LeftClosed(ds, ch) <==>
              exists i: nat :: i < |ds| && ds[i] == Closes(ch) && forall j | i < j < |ds| :: ds[j] != Opens(ch)
  {
    if ds != [] {
      var before, d := ds[..|ds| - 1], ds[|ds| - 1];
      LeftClosedExactly(before, ch);
      if LeftClosed(ds, ch) && d != Closes(ch) {
        var i: nat :| i < |before| && before[i] == Closes(ch) && forall j | i < j < |before| :: before[j] != Opens(ch);
        assert ds[i] == Closes(ch);
      }
      if i: nat :| i < |ds| && ds[i] == Closes(ch) && forall j | i < j < |ds| :: ds[j] != Opens(ch) {
        if i < |before| {
          assert before[i] == Closes(ch) && forall j | i < j < |before| :: before[j] != Opens(ch);
        }
      }
    }
  }

  /** The burst raises a turn in the window before the place. */
  predicate RaisedBefore(ds: seq<Delivery>, ch: Channel, n: nat) {
    exists i | 0 <= i < n && i < |ds| :: ds[i].Raises? && ds[i].channel == ch
  }

  /** The burst raises the one window before it raises the other. */
  ghost predicate RaisedFirst(ds: seq<Delivery>, a: Channel, b: Channel) {
    exists n: nat :: RaisedBefore(ds, a, n) && !RaisedBefore(ds, b, n)
  }

  /** The windows of a burst are those it raises, each once, in the order of their first trigger. */
  lemma {:induction false} WindowsInOrder(ds: seq<Delivery>)
    ensures forall ch :: ch in Windows(ds) <==> RaisedBefore(ds, ch, |ds|)
    ensures forall i, j | 0 <= i < j < |Windows(ds)| :: RaisedFirst(ds, Windows(ds)[i], Windows(ds)[j])
  {
    if ds != [] {
      var before, d := ds[..|ds| - 1], ds[|ds| - 1];
      WindowsInOrder(before);
      var ws, was := Windows(ds), Windows(before);
      forall ch, n: nat
        ensures RaisedBefore(ds, ch, n) <==>
                  RaisedBefore(before, ch, n) || (n >= |ds| && d.Raises? && d.channel == ch)
      {
        RaisedMore(before, d, ch, n);
      }
      forall ch
        ensures RaisedBefore(before, ch, |ds|) <==> RaisedBefore(before, ch, |before|)
      {
      }
      hide RaisedBefore;
      forall i, j | 0 <= i < j < |ws|
        ensures RaisedFirst(ds, ws[i], ws[j])
      {
        assert ws[i] == was[i] && was[i] in was;
        if j < |was| {
          assert RaisedFirst(before, was[i], was[j]);
          var n: nat :| RaisedBefore(before, was[i], n) && !RaisedBefore(before, was[j], n);
          var m := if n < |ds| then n else |before|;
          SoonEnough(before, was[i], n);
          SoonEnough(before, was[j], n);
          assert RaisedBefore(ds, ws[i], m) && !RaisedBefore(ds, ws[j], m);
        } else {
          assert RaisedBefore(ds, ws[i], |before|) && !RaisedBefore(ds, ws[j], |before|);
        }
      }
    }
  }

  lemma SoonEnough(ds: seq<Delivery>, ch: Channel, n: nat)
    ensures n >= |ds| ==> (RaisedBefore(ds, ch, n) <==> RaisedBefore(ds, ch, |ds|))
  {
  }

  lemma RaisedMore(ds: seq<Delivery>, d: Delivery, ch: Channel, n: nat)
    ensures RaisedBefore(ds + [d], ch, n) <==>
              RaisedBefore(ds, ch, n) || (n >= |ds| + 1 && d.Raises? && d.channel == ch)
  {
    var more := ds + [d];
    assert more[|ds|] == d;
    assert forall j | 0 <= j < |ds| :: more[j] == ds[j];
  }
}
