/** The tokens one reflection request uses in place of instance ids and amendment ids. */
module ReflectionAliases {
  import opened Decimals

  type Id = string
  type AmendmentId = int

  function TokenOf(letter: char, n: nat): string { [letter] + Decimal(n) }

  lemma TokensDiffer(letter: char, a: nat, b: nat)
    requires TokenOf(letter, a) == TokenOf(letter, b)
    ensures a == b
  {
    assert TokenOf(letter, a)[1..] == Decimal(a) && TokenOf(letter, b)[1..] == Decimal(b);
    DecimalIsInjective(a, b);
  }

  /** Two maps that undo each other, whose tokens were handed out in order. */
  ghost predicate Paired<T>(letter: char, tokens: map<T, string>, ids: map<string, T>) {
    && (forall id | id in tokens :: tokens[id] in ids && ids[tokens[id]] == id)
    && (forall t | t in ids :: ids[t] in tokens && tokens[ids[t]] == t)
    && (forall t | t in ids :: HandedOut(letter, t, |tokens|))
  }

  ghost predicate HandedOut(letter: char, t: string, n: nat) { exists k | 1 <= k <= n :: t == TokenOf(letter, k) }

  lemma NextIsNew<T>(letter: char, tokens: map<T, string>, ids: map<string, T>)
    requires Paired(letter, tokens, ids)
    ensures TokenOf(letter, |tokens| + 1) !in ids
  {
    var t := TokenOf(letter, |tokens| + 1);
    if t in ids {
      assert HandedOut(letter, t, |tokens|);
      var k :| 1 <= k <= |tokens| && t == TokenOf(letter, k);
      TokensDiffer(letter, k, |tokens| + 1);
    }
  }

  lemma HandedOutStill(letter: char, t: string, n: nat)
    requires HandedOut(letter, t, n)
    ensures HandedOut(letter, t, n + 1)
  {
  }

  lemma OneMore<S, T>(m: map<S, T>, k: S, v: T)
    requires k !in m
    ensures |m[k := v]| == |m| + 1
  {
    assert m[k := v].Keys == m.Keys + {k};
  }

  lemma OneMoreValue<S, T>(m: map<S, T>, k: S, v: T)
    requires k !in m
    ensures m[k := v].Values == m.Values + {v}
  {
    var more := m[k := v];
    assert more[k] == v;
    assert forall h | h in m :: more[h] == m[h];
  }

  lemma PairMore<T>(letter: char, tokens: map<T, string>, ids: map<string, T>, id: T, t: string)
    requires Paired(letter, tokens, ids) && id !in tokens && t !in ids && HandedOut(letter, t, |tokens| + 1)
    ensures Paired(letter, tokens[id := t], ids[t := id])
  {
    OneMore(tokens, id, t);
    forall u | u in ids
      ensures HandedOut(letter, u, |tokens| + 1)
    {
      HandedOutStill(letter, u, |tokens|);
    }
    hide HandedOut;
  }

  lemma OneMorePair<T>(letter: char, tokens: map<T, string>, ids: map<string, T>, id: T)
    requires Paired(letter, tokens, ids) && id !in tokens
    ensures var t := TokenOf(letter, |tokens| + 1); t !in ids && Paired(letter, tokens[id := t], ids[t := id])
  {
    var t := TokenOf(letter, |tokens| + 1);
    NextIsNew(letter, tokens, ids);
    assert HandedOut(letter, t, |tokens| + 1);
    hide Paired, TokenOf, HandedOut;
    PairMore(letter, tokens, ids, id, t);
  }

  /** No two tokens stand for one id, and none is left without. */
  lemma TokensAreABijection<T>(letter: char, tokens: map<T, string>, ids: map<string, T>, s: string, t: string, id: T)
    requires Paired(letter, tokens, ids) && s in ids && t in ids
    ensures ids[s] == ids[t] ==> s == t
    ensures id in tokens <==> id in ids.Values
  {
    assert tokens[ids[s]] == s && tokens[ids[t]] == t;
    assert id in tokens ==> ids[tokens[id]] == id;
  }

  lemma Known<T>(letter: char, tokens: map<T, string>, ids: map<string, T>, id: T)
    requires Paired(letter, tokens, ids)
    ensures id in tokens ==>
              tokens[id] in ids && ids[tokens[id]] == id && id in ids.Values && ids[tokens[id] := id] == ids
  {
  }

  lemma SameSize<S, T, U>(m: map<S, T>, n: map<S, U>)
    requires m.Keys == n.Keys
    ensures |m| == |n|
  {
    assert |m| == |m.Keys| && |n| == |n.Keys|;
  }

  predicate Placed(participants: seq<string>, at: map<Id, nat>) {
    |participants| == |at| && forall id | id in at :: at[id] < |participants|
  }

  ghost function TokensAt(participants: seq<string>, at: map<Id, nat>): (r: map<Id, string>)
    requires Placed(participants, at)
    ensures r.Keys == at.Keys && |r| == |at|
  {
    var r := map id | id in at :: participants[at[id]];
    assert r.Keys == at.Keys;
    SameSize(r, at);
    r
  }

  lemma AsMany(participants: seq<string>, at: map<Id, nat>)
    requires Placed(participants, at)
    ensures |TokensAt(participants, at)| == |participants|
  {
  }

  lemma TokensAtMore(participants: seq<string>, at: map<Id, nat>, id: Id, token: string)
    requires Placed(participants, at) && id !in at
    ensures Placed(participants + [token], at[id := |participants|])
    ensures TokensAt(participants + [token], at[id := |participants|]) == TokensAt(participants, at)[id := token]
  {
    OneMore(at, id, |participants|);
    var more, ids := participants + [token], at[id := |participants|];
    forall x | x in ids
      ensures TokensAt(more, ids)[x] == TokensAt(participants, at)[id := token][x]
    {
    }
    assert TokensAt(more, ids).Keys == TokensAt(participants, at)[id := token].Keys;
  }

  class Aliases {
    const self: Id
    var participants: seq<string>
    var participantAt: map<Id, nat>
    var instanceFor: map<string, Id>
    var amendmentTokens: map<AmendmentId, string>
    var amendmentIds: map<string, AmendmentId>

    ghost predicate ParticipantsOk()
      reads this`participants, this`participantAt, this`instanceFor
    {
      && Placed(participants, participantAt)
      && Paired('p', TokensAt(participants, participantAt), instanceFor)
      && self !in participantAt
    }

    ghost predicate AmendmentsOk()
      reads this`amendmentTokens, this`amendmentIds
    {
      Paired('a', amendmentTokens, amendmentIds)
    }

    /** Tokens and ids undo each other, and no token stands for the instance itself. */
    ghost predicate Valid()
      reads this
    {
      ParticipantsOk() && AmendmentsOk()
    }

    constructor (self: Id)
      ensures Valid() && this.self == self && instanceFor == map[] && amendmentIds == map[]
    {
      this.self := self;
      participants, participantAt, instanceFor, amendmentTokens, amendmentIds := [], map[], map[], map[], map[];
    }

    /** The token for a participant, allocated on first mention; none for the instance itself. */
    method Participant(id: Id) returns (token: string)
      requires ParticipantsOk()
      modifies this`participants, this`participantAt, this`instanceFor
      ensures ParticipantsOk()
      ensures id == self ==> token == "" && instanceFor == old(instanceFor)
      ensures id != self ==> instanceFor == old(instanceFor)[token := id]
      ensures forall t | t in old(instanceFor) :: instanceFor[t] == old(instanceFor)[t]
    {
      if id == self {
        return "";
      }
      if id !in participantAt {
        token := Allocate(id);
        return;
      }
      token := participants[participantAt[id]];
      assert TokensAt(participants, participantAt)[id] == token;
      Known('p', TokensAt(participants, participantAt), instanceFor, id);
    }

    method Allocate(id: Id) returns (token: string)
      requires ParticipantsOk() && id != self && id !in participantAt
      modifies this`participants, this`participantAt, this`instanceFor
      ensures ParticipantsOk() && token !in old(instanceFor) && instanceFor == old(instanceFor)[token := id]
    {
      hide Paired, TokenOf, TokensAt, Placed;
      OneMorePair('p', TokensAt(participants, participantAt), instanceFor, id);
      token := TokenOf('p', |participants| + 1);
      TokensAtMore(participants, participantAt, id, token);
      AsMany(participants, participantAt);
      participantAt := participantAt[id := |participants|];
      instanceFor := instanceFor[token := id];
      participants := participants + [token];
    }

    method Amendment(id: AmendmentId) returns (token: string)
      requires AmendmentsOk()
      modifies this`amendmentTokens, this`amendmentIds
      ensures AmendmentsOk() && amendmentIds == old(amendmentIds)[token := id]
      ensures amendmentIds.Values == old(amendmentIds.Values) + {id}
      ensures token in old(amendmentIds) ==> old(amendmentIds)[token] == id
    {
      Known('a', amendmentTokens, amendmentIds, id);
      hide Paired, TokenOf;
      if id in amendmentTokens {
        return amendmentTokens[id];
      }
      OneMorePair('a', amendmentTokens, amendmentIds, id);
      token := TokenOf('a', |amendmentTokens| + 1);
      OneMoreValue(amendmentIds, token, id);
      amendmentTokens := amendmentTokens[id := token];
      amendmentIds := amendmentIds[token := id];
    }

    /** Lists the active amendments in a request: after it a token resolves exactly to an active amendment. */
    method ListAmendments(active: seq<AmendmentId>) returns (tokens: seq<string>)
      requires AmendmentsOk() && amendmentIds == map[]
      modifies this`amendmentTokens, this`amendmentIds
      ensures AmendmentsOk() && amendmentIds.Values == (set id | id in active)
      ensures Names(tokens, amendmentIds, active)
    {
      hide AmendmentsOk, Names;
      NamesNone(amendmentIds);
      tokens := [];
      for i := 0 to |active|
        invariant AmendmentsOk() && Names(tokens, amendmentIds, active[..i])
        invariant amendmentIds.Values == set id | id in active[..i]
      {
        assert active[..i + 1] == active[..i] + [active[i]];
        ghost var before := amendmentIds;
        var token := Amendment(active[i]);
        NamesMore(tokens, before, active[..i], token, active[i]);
        tokens := tokens + [token];
      }
      assert active[..|active|] == active;
    }
  }

  ghost predicate Names(tokens: seq<string>, ids: map<string, AmendmentId>, active: seq<AmendmentId>) {
    |tokens| == |active| && forall i | 0 <= i < |active| :: tokens[i] in ids && ids[tokens[i]] == active[i]
  }

  lemma NamesNone(ids: map<string, AmendmentId>)
    ensures Names([], ids, [])
  {
  }

  lemma NamesMore(tokens: seq<string>, ids: map<string, AmendmentId>, active: seq<AmendmentId>, token: string,
                  id: AmendmentId)
    requires Names(tokens, ids, active) && (token in ids ==> ids[token] == id)
    ensures Names(tokens + [token], ids[token := id], active + [id])
  {
  }
}
