/** Slash commands: the parser that delivers a line's arguments to the nodes of its
    path, and the separate walk completion makes over the same tokens. */
module CommandLine {
  import opened Options

  datatype Passthrough = NoPassthrough | Partial | Full
  datatype Positional = Positional(name: string, variadic: bool, passthrough: Passthrough)
  datatype Flag = Flag(name: string, boolean: bool, variadic: bool)
  datatype Node = Node(name: string, aliases: seq<string>, positionals: seq<Positional>, flags: seq<Flag>,
                       children: seq<Node>)

  datatype Token = Token(text: string, start: nat)

  // ----- Tokens -----

  datatype OptionKind = ValueToken | LoneDash | EndOfOptions | LongOption | ShortOption

  function Classify(text: string): OptionKind {
    if text == "-" then LoneDash
    else if text == "--" then EndOfOptions
    else if "--" <= text then LongOption
    else if |text| > 1 && text[0] == '-' && '0' <= text[1] <= '9' then ValueToken
    else if "-" <= text then ShortOption
    else ValueToken
  }

  predicate IsFlag(k: OptionKind) { k == LongOption || k == ShortOption }

  function IndexOfEquals(text: string, i: nat): nat
    requires i <= |text|
    decreases |text| - i
  {
    if i == |text| || text[i] == '=' then i else IndexOfEquals(text, i + 1)
  }

  /** A long option with its value attached. */
  predicate Attached(text: string) {
    "--" <= text && var i := IndexOfEquals(text, 0); 2 < i < |text|
  }

  function FlagName(text: string): string {
    var i := IndexOfEquals(text, 0);
    if Attached(text) && i <= |text| then text[..i] else text
  }

  // ----- Looking things up -----

  function Resolve(ps: seq<Positional>, index: nat): Option<Positional> {
    if index < |ps| then Some(ps[index])
    else if ps == [] || !ps[|ps| - 1].variadic then None
    else Some(ps[|ps| - 1])
  }

  function ByName(fold: string -> string, nodes: seq<Node>, name: string): Option<Node> {
    if nodes == [] then None
    else if fold(nodes[0].name) == fold(name) then Some(nodes[0])
    else ByName(fold, nodes[1..], name)
  }

  function ByAlias(fold: string -> string, nodes: seq<Node>, name: string): Option<Node> {
    if nodes == [] then None
    else if exists a | a in nodes[0].aliases :: fold(a) == fold(name) then Some(nodes[0])
    else ByAlias(fold, nodes[1..], name)
  }

  /** Names before aliases, each in the order they were declared. */
  function Find(fold: string -> string, n: Node, name: string): Option<Node> {
    var named := ByName(fold, n.children, name);
    if named.Some? then named else ByAlias(fold, n.children, name)
  }

  /** A flag, and how deep on the path the node that declares it stands. */
  datatype Binding = Binding(owner: nat, flag: Flag)

  function Own(n: Node, depth: nat): seq<Binding> {
    seq(|n.flags|, i requires 0 <= i < |n.flags| => Binding(depth, n.flags[i]))
  }

  predicate Names(bs: seq<Binding>, name: string) { exists b | b in bs :: b.flag.name == name }

  /** Each binding none after it shares a name with. */
  function Dedupe(bs: seq<Binding>): seq<Binding> {
    if bs == [] then []
    else if Names(bs[1..], bs[0].flag.name) then Dedupe(bs[1..])
    else [bs[0]] + Dedupe(bs[1..])
  }

  function AllBindings(path: seq<Node>): seq<Binding> {
    if path == [] then []
    else Dedupe(AllBindings(path[..|path| - 1]) + Own(path[|path| - 1], |path| - 1))
  }

  function FirstNamed(bs: seq<Binding>, name: string): Option<Binding> {
    if bs == [] then None
    else if bs[0].flag.name == name then Some(bs[0])
    else FirstNamed(bs[1..], name)
  }

  function LastNamed(bs: seq<Binding>, name: string): Option<Binding> {
    if bs == [] then None
    else if bs[|bs| - 1].flag.name == name then Some(bs[|bs| - 1])
    else LastNamed(bs[..|bs| - 1], name)
  }

  function FindBinding(path: seq<Node>, name: string): Option<Binding> { FirstNamed(AllBindings(path), name) }

  /** The nearest node that declares the flag, and its last declaration there. */
  function Nearest(path: seq<Node>, name: string): Option<Binding> {
    if path == [] then None
    else
      var own := LastNamed(Own(path[|path| - 1], |path| - 1), name);
      if own.Some? then own else Nearest(path[..|path| - 1], name)
  }

  lemma {:induction false} LastNamedSplit(bs: seq<Binding>, name: string)
    requires bs != []
    ensures LastNamed(bs, name) ==
            if Names(bs[1..], name) then LastNamed(bs[1..], name)
            else if bs[0].flag.name == name then Some(bs[0]) else None
  {
    if |bs| > 1 && bs[|bs| - 1].flag.name != name {
      LastNamedSplit(bs[..|bs| - 1], name);
      assert bs[..|bs| - 1][1..] == bs[1..][..|bs| - 2];
      assert bs[1..] == bs[1..][..|bs| - 2] + [bs[|bs| - 1]];
    } else if |bs| > 1 {
      assert bs[1..][|bs| - 2] == bs[|bs| - 1];
    }
  }

  lemma {:induction false} NamedIffSome(bs: seq<Binding>, name: string)
    ensures Names(bs, name) <==> LastNamed(bs, name).Some?
  {
    if bs != [] {
      NamedIffSome(bs[..|bs| - 1], name);
      assert bs == bs[..|bs| - 1] + [bs[|bs| - 1]];
    }
  }

  /** Deduplicating leaves, under each name, what was declared last. */
  lemma {:induction false} DedupeKeepsTheLast(bs: seq<Binding>, name: string)
    ensures FirstNamed(Dedupe(bs), name) == LastNamed(bs, name) == LastNamed(Dedupe(bs), name)
    ensures Names(Dedupe(bs), name) <==> Names(bs, name)
  {
    if bs != [] {
      var rest := bs[1..];
      DedupeKeepsTheLast(rest, name);
      LastNamedSplit(bs, name);
      NamedIffSome(rest, name);
      assert bs == [bs[0]] + rest;
      if !Names(rest, bs[0].flag.name) {
        var d := Dedupe(bs);
        assert d[1..] == Dedupe(rest);
        LastNamedSplit(d, name);
        NamedIffSome(Dedupe(rest), name);
      }
    }
  }

  lemma {:induction false} LastNamedJoined(a: seq<Binding>, b: seq<Binding>, name: string)
    ensures LastNamed(a + b, name) == if LastNamed(b, name).Some? then LastNamed(b, name) else LastNamed(a, name)
  {
    if b == [] {
      assert a + b == a;
    } else {
      assert (a + b)[..|a + b| - 1] == a + b[..|b| - 1];
      LastNamedJoined(a, b[..|b| - 1], name);
    }
  }

  /** The flag a token names is the one its nearest node on the path declared last. */
  lemma {:induction false} BindingIsNearest(path: seq<Node>, name: string)
    ensures FindBinding(path, name) == LastNamed(AllBindings(path), name) == Nearest(path, name)
    ensures Nearest(path, name).Some? ==> Nearest(path, name).value.owner < |path|
  {
    if path != [] {
      var above, own := path[..|path| - 1], Own(path[|path| - 1], |path| - 1);
      BindingIsNearest(above, name);
      LastNamedJoined(AllBindings(above), own, name);
      DedupeKeepsTheLast(AllBindings(above) + own, name);
      OwnerIs(own, name, |path| - 1);
    }
  }

  lemma {:induction false} OwnerIs(bs: seq<Binding>, name: string, depth: nat)
    requires forall b | b in bs :: b.owner == depth
    ensures LastNamed(bs, name).Some? ==> LastNamed(bs, name).value.owner == depth
  {
    if bs != [] {
      OwnerIs(bs[..|bs| - 1], name, depth);
    }
  }

  // ----- The parser -----

  /** Where a token went: it named a node, became an argument of one, or lies in a raw suffix. */
  datatype Slot = Named | ArgOf(depth: nat) | RawOf(depth: nat) | RawRest

  /** The nodes matched so far, root first, and what each was given; the current node's place
      among its positionals; and where each token went. */
  datatype State = State(path: seq<Node>, args: seq<seq<string>>, index: nat, variadic: bool, optionsEnded: bool,
                         slots: seq<Slot>)

  datatype Outcome = Unknown(name: string) | Went(state: State, next: nat, done: bool)

  function Start(root: Node): State { State([root], [[]], 0, false, false, []) }

  predicate Formed(st: State) { |st.path| == |st.args| > 0 }

  function Current(st: State): Node
    requires Formed(st)
  {
    st.path[|st.path| - 1]
  }

  function Given(st: State, depth: nat, text: string): State
    requires depth < |st.args|
  {
    st.(args := st.args[depth := st.args[depth] + [text]], slots := st.slots + [ArgOf(depth)])
  }

  function GivenAll(st: State, depth: nat, tokens: seq<Token>): (r: State)
    requires depth < |st.args|
    ensures |r.args| == |st.args|
  {
    if tokens == [] then st
    else Given(GivenAll(st, depth, tokens[..|tokens| - 1]), depth, tokens[|tokens| - 1].text)
  }

  function GivenRaw(st: State, raw: string, tokens: seq<Token>, i: nat): State
    requires Formed(st) && i < |tokens| && tokens[i].start <= |raw|
  {
    var d := |st.path| - 1;
    st.(args := st.args[d := st.args[d] + [raw[tokens[i].start..]]],
        slots := st.slots + [RawOf(d)] + seq(|tokens| - i - 1, _ => RawRest))
  }

  function Descended(st: State, child: Node): State {
    st.(path := st.path + [child], args := st.args + [[]], index := 0, variadic := false, slots := st.slots + [Named])
  }

  /** Tokens as a scan leaves them: each where the line has it. */
  predicate Scanned(raw: string, tokens: seq<Token>) { forall i | 0 <= i < |tokens| :: tokens[i].start <= |raw| }

  /** The suffix a passthrough positional takes, if this token starts it. */
  predicate TakesRaw(st: State, text: string)
    requires Formed(st)
  {
    var pos, kind := Resolve(Current(st).positionals, st.index), Classify(text);
    pos.Some? && match pos.value.passthrough
                 case NoPassthrough => false
                 case Partial => kind == EndOfOptions || (FindBinding(st.path, FlagName(text)).None? && !IsFlag(kind))
                 case Full => FindBinding(st.path, FlagName(text)).None?
  }

  function ConsumeFlag(st: State, tokens: seq<Token>, i: nat, b: Binding): Outcome
    requires i < |tokens| && b.owner < |st.args|
  {
    var took := Given(st, b.owner, tokens[i].text);
    if b.flag.boolean || Attached(tokens[i].text) || i + 1 >= |tokens| then Went(took, i, false)
    else if b.flag.variadic then Went(GivenAll(took, b.owner, tokens[i + 1..]), |tokens|, true)
    else Went(Given(took, b.owner, tokens[i + 1].text), i + 1, false)
  }

  function Consume(fold: string -> string, st: State, raw: string, tokens: seq<Token>, i: nat): Outcome
    requires Formed(st) && i < |tokens| && Scanned(raw, tokens)
  {
    BindingIsNearest(st.path, FlagName(tokens[i].text));
    var text, d := tokens[i].text, |st.path| - 1;
    var pos, kind := Resolve(Current(st).positionals, st.index), Classify(text);
    var binding := FindBinding(st.path, FlagName(text));
    if TakesRaw(st, text) then
      var ended := kind == EndOfOptions && pos.value.passthrough == Partial;
      Went(GivenRaw(st, raw, tokens, i).(optionsEnded := st.optionsEnded || ended), |tokens|, true)
    else if binding.Some? then ConsumeFlag(st, tokens, i, binding.value)
    else if kind == EndOfOptions || IsFlag(kind) then Went(GivenAll(st, d, tokens[i..]), i, true)
    else if st.variadic then Went(Given(st, d, text), i, false)
    else if pos.Some? then
      if pos.value.variadic then Went(Given(st, d, text).(variadic := true), i, false)
      else Went(Given(st, d, text).(index := st.index + 1), i, false)
    else
      var child := Find(fold, Current(st), text);
      if child.Some? then Went(Descended(st, child.value), i, false)
      else if Current(st).children != [] then Unknown(text)
      else Went(Given(st, d, text), i, false)
  }

  lemma ConsumeForms(fold: string -> string, st: State, raw: string, tokens: seq<Token>, i: nat)
    requires Formed(st) && i < |tokens| && Scanned(raw, tokens)
    ensures var o := Consume(fold, st, raw, tokens, i); o.Went? ==> Formed(o.state) && i <= o.next
  {
    hide Classify, FlagName, GivenAll, Find, FindBinding, TakesRaw, Attached, Resolve;
    GivenAllForms(st, |st.path| - 1, tokens[i..]);
    BindingIsNearest(st.path, FlagName(tokens[i].text));
    var b := FindBinding(st.path, FlagName(tokens[i].text));
    if b.Some? {
      GivenAllForms(Given(st, b.value.owner, tokens[i].text), b.value.owner, tokens[i + 1..]);
    }
  }

  lemma {:induction false} GivenAllForms(st: State, depth: nat, tokens: seq<Token>)
    requires depth < |st.args|
    ensures var r := GivenAll(st, depth, tokens); |r.args| == |st.args| && r == st.(args := r.args, slots := r.slots)
  {
    if tokens != [] {
      GivenAllForms(st, depth, tokens[..|tokens| - 1]);
    }
  }

  function Walk(fold: string -> string, st: State, raw: string, tokens: seq<Token>, i: nat): Outcome
    requires Formed(st) && Scanned(raw, tokens)
    decreases |tokens| - i
  {
    if i >= |tokens| then Went(st, i, true)
    else
      ConsumeForms(fold, st, raw, tokens, i);
      var o := Consume(fold, st, raw, tokens, i);
      if o.Unknown? || o.done then o else Walk(fold, o.state, raw, tokens, o.next + 1)
  }

  // ----- Every token is delivered once -----

  /** What the slots say one node was given, in the order of the line. */
  function ArgsAt(slots: seq<Slot>, raw: string, tokens: seq<Token>, depth: nat): seq<string>
    requires |slots| <= |tokens| && Scanned(raw, tokens)
    decreases |slots|
  {
    if slots == [] then []
    else
      var n := |slots| - 1;
      var before := ArgsAt(slots[..n], raw, tokens, depth);
      match slots[n]
      case ArgOf(d) => if d == depth then before + [tokens[n].text] else before
      case RawOf(d) => if d == depth then before + [raw[tokens[n].start..]] else before
      case _ => before
  }

  /** The tokens that named nodes, in order. */
  function NamesAt(slots: seq<Slot>, tokens: seq<Token>): seq<string>
    requires |slots| <= |tokens|
    decreases |slots|
  {
    if slots == [] then []
    else if slots[|slots| - 1] == Named then NamesAt(slots[..|slots| - 1], tokens) + [tokens[|slots| - 1].text]
    else NamesAt(slots[..|slots| - 1], tokens)
  }

  /** Each node of the path was found among its parent's children under the token that named it. */
  predicate Descends(fold: string -> string, path: seq<Node>, names: seq<string>) {
    |path| == |names| + 1 && forall k | 0 <= k < |names| :: Find(fold, path[k], names[k]) == Some(path[k + 1])
  }

  ghost predicate Delivered(fold: string -> string, st: State, raw: string, tokens: seq<Token>, n: nat)
    requires Scanned(raw, tokens)
  {
    && Formed(st) && |st.slots| == n <= |tokens|
    && (forall d | 0 <= d < |st.args| :: st.args[d] == ArgsAt(st.slots, raw, tokens, d))
    && Descends(fold, st.path, NamesAt(st.slots, tokens))
    && (forall k | 0 <= k < n && (st.slots[k].ArgOf? || st.slots[k].RawOf?) :: st.slots[k].depth < |st.path|)
  }

  /** No token lies in a raw suffix. */
  predicate Plain(slots: seq<Slot>) { forall k | 0 <= k < |slots| :: !slots[k].RawOf? && !slots[k].RawRest? }

  /** Plain, but for a raw suffix that may end it: one node's, from its first token to the last. */
  ghost predicate Shaped(slots: seq<Slot>) {
    exists k | 0 <= k <= |slots| :: Plain(slots[..k]) && RawFrom(slots, k)
  }

  predicate RawFrom(slots: seq<Slot>, k: nat)
    requires k <= |slots|
  {
    k == |slots| || (slots[k].RawOf? && forall j | k < j < |slots| :: slots[j] == RawRest)
  }

  lemma OneMoreSlot(slots: seq<Slot>, s: Slot, raw: string, tokens: seq<Token>, depth: nat)
    requires |slots| < |tokens| && Scanned(raw, tokens)
    ensures var n := |slots|;
            ArgsAt(slots + [s], raw, tokens, depth) == ArgsAt(slots, raw, tokens, depth)
              + (if s == ArgOf(depth) then [tokens[n].text]
                 else if s == RawOf(depth) then [raw[tokens[n].start..]] else [])
    ensures NamesAt(slots + [s], tokens) == NamesAt(slots, tokens) + if s == Named then [tokens[|slots|].text] else []
  {
    assert (slots + [s])[..|slots|] == slots;
  }

  lemma GivenDelivers(fold: string -> string, st: State, raw: string, tokens: seq<Token>, d: nat)
    requires Scanned(raw, tokens) && |st.slots| < |tokens| && Delivered(fold, st, raw, tokens, |st.slots|)
             && d < |st.path|
    ensures Delivered(fold, Given(st, d, tokens[|st.slots|].text), raw, tokens, |st.slots| + 1)
    ensures Plain(st.slots) ==> Plain(Given(st, d, tokens[|st.slots|].text).slots)
  {
    var r := Given(st, d, tokens[|st.slots|].text);
    forall e | 0 <= e < |st.args|
      ensures r.args[e] == ArgsAt(r.slots, raw, tokens, e)
    {
      OneMoreSlot(st.slots, ArgOf(d), raw, tokens, e);
    }
    OneMoreSlot(st.slots, ArgOf(d), raw, tokens, 0);
    hide ArgsAt, NamesAt, Descends;
    assert NamesAt(st.slots, tokens) + [] == NamesAt(st.slots, tokens);
  }

  lemma {:induction false} GivenAllDelivers(fold: string -> string, st: State, raw: string, tokens: seq<Token>, d: nat,
                                            n: nat)
    requires Scanned(raw, tokens) && |st.slots| <= n <= |tokens| && Delivered(fold, st, raw, tokens, |st.slots|)
             && d < |st.path|
    ensures Delivered(fold, GivenAll(st, d, tokens[|st.slots|..n]), raw, tokens, n)
    ensures Plain(st.slots) ==> Plain(GivenAll(st, d, tokens[|st.slots|..n]).slots)
    decreases n
  {
    hide Delivered, Plain, Given;
    var k := |st.slots|;
    SlotsCount(fold, st, raw, tokens, k);
    if k < n {
      var before := GivenAll(st, d, tokens[k..n - 1]);
      GivenAllForms(st, d, tokens[k..n - 1]);
      GivenAllDelivers(fold, st, raw, tokens, d, n - 1);
      assert tokens[k..n][..n - k - 1] == tokens[k..n - 1];
      SlotsCount(fold, before, raw, tokens, n - 1);
      GivenDelivers(fold, before, raw, tokens, d);
    } else {
      assert tokens[k..n] == [];
    }
  }

  lemma SlotsCount(fold: string -> string, st: State, raw: string, tokens: seq<Token>, n: nat)
    requires Scanned(raw, tokens) && Delivered(fold, st, raw, tokens, n)
    ensures |st.slots| == n <= |tokens| && Formed(st)
  {
  }

  lemma DescendedDelivers(fold: string -> string, st: State, raw: string, tokens: seq<Token>, child: Node)
    requires Scanned(raw, tokens) && |st.slots| < |tokens| && Delivered(fold, st, raw, tokens, |st.slots|)
    requires Find(fold, Current(st), tokens[|st.slots|].text) == Some(child)
    ensures Delivered(fold, Descended(st, child), raw, tokens, |st.slots| + 1)
    ensures Plain(st.slots) ==> Plain(Descended(st, child).slots)
  {
    var r, n := Descended(st, child), |st.slots|;
    forall e | 0 <= e < |r.args|
      ensures r.args[e] == ArgsAt(r.slots, raw, tokens, e)
    {
      OneMoreSlot(st.slots, Named, raw, tokens, e);
      if e == |st.args| {
        NothingBelow(st.slots, raw, tokens, e);
      }
    }
    OneMoreSlot(st.slots, Named, raw, tokens, 0);
    hide ArgsAt, NamesAt, Find;
    var names := NamesAt(st.slots, tokens);
    assert NamesAt(r.slots, tokens) == names + [tokens[n].text];
  }

  lemma {:induction false} NothingBelow(slots: seq<Slot>, raw: string, tokens: seq<Token>, depth: nat)
    requires |slots| <= |tokens| && Scanned(raw, tokens)
    requires forall k | 0 <= k < |slots| && (slots[k].ArgOf? || slots[k].RawOf?) :: slots[k].depth < depth
    ensures ArgsAt(slots, raw, tokens, depth) == []
    decreases |slots|
  {
    if slots != [] {
      NothingBelow(slots[..|slots| - 1], raw, tokens, depth);
    }
  }

  lemma {:induction false} RestAddsNothing(slots: seq<Slot>, n: nat, raw: string, tokens: seq<Token>, depth: nat)
    requires |slots| + n <= |tokens| && Scanned(raw, tokens)
    ensures var more := slots + seq(n, _ => RawRest);
            ArgsAt(more, raw, tokens, depth) == ArgsAt(slots, raw, tokens, depth)
            && NamesAt(more, tokens) == NamesAt(slots, tokens)
  {
    if n > 0 {
      RestAddsNothing(slots, n - 1, raw, tokens, depth);
      assert slots + seq(n, _ => RawRest) == slots + seq(n - 1, _ => RawRest) + [RawRest];
      OneMoreSlot(slots + seq(n - 1, _ => RawRest), RawRest, raw, tokens, depth);
    } else {
      assert slots + seq(0, _ => RawRest) == slots;
    }
  }

  lemma RawDelivers(fold: string -> string, st: State, raw: string, tokens: seq<Token>)
    requires Scanned(raw, tokens) && |st.slots| < |tokens| && Delivered(fold, st, raw, tokens, |st.slots|)
             && Plain(st.slots)
    ensures Delivered(fold, GivenRaw(st, raw, tokens, |st.slots|), raw, tokens, |tokens|)
    ensures Shaped(GivenRaw(st, raw, tokens, |st.slots|).slots)
  {
    var r, n, d := GivenRaw(st, raw, tokens, |st.slots|), |st.slots|, |st.path| - 1;
    RawShaped(st.slots, d, |tokens| - n - 1);
    hide ArgsAt, NamesAt, Descends, Plain, Shaped;
    forall e | 0 <= e < |st.args|
      ensures r.args[e] == ArgsAt(r.slots, raw, tokens, e)
    {
      OneMoreSlot(st.slots, RawOf(d), raw, tokens, e);
      RestAddsNothing(st.slots + [RawOf(d)], |tokens| - n - 1, raw, tokens, e);
    }
    OneMoreSlot(st.slots, RawOf(d), raw, tokens, 0);
    RestAddsNothing(st.slots + [RawOf(d)], |tokens| - n - 1, raw, tokens, 0);
    assert NamesAt(st.slots, tokens) + [] == NamesAt(st.slots, tokens);
  }

  lemma RawShaped(slots: seq<Slot>, d: nat, n: nat)
    requires Plain(slots)
    ensures Shaped(slots + [RawOf(d)] + seq(n, _ => RawRest))
  {
    var all := slots + [RawOf(d)] + seq(n, _ => RawRest);
    assert all[..|slots|] == slots && RawFrom(all, |slots|);
  }

  ghost predicate Stepped(fold: string -> string, o: Outcome, raw: string, tokens: seq<Token>)
    requires Scanned(raw, tokens)
  {
    o.Went? ==>
      && (o.done ==> Delivered(fold, o.state, raw, tokens, |tokens|) && Shaped(o.state.slots))
      && (!o.done ==> Delivered(fold, o.state, raw, tokens, o.next + 1) && Plain(o.state.slots))
  }

  lemma PlainIsShaped(slots: seq<Slot>)
    requires Plain(slots)
    ensures Shaped(slots)
  {
    assert slots[..|slots|] == slots && RawFrom(slots, |slots|);
  }

  lemma FlagDelivers(fold: string -> string, st: State, raw: string, tokens: seq<Token>, b: Binding)
    requires Scanned(raw, tokens) && |st.slots| < |tokens| && Delivered(fold, st, raw, tokens, |st.slots|)
             && Plain(st.slots)
    requires b.owner < |st.path|
    ensures Stepped(fold, ConsumeFlag(st, tokens, |st.slots|, b), raw, tokens)
  {
    hide Delivered, Plain, Shaped, GivenAll, Given, Attached;
    var i := |st.slots|;
    SlotsCount(fold, st, raw, tokens, i);
    var took := Given(st, b.owner, tokens[i].text);
    GivenKeeps(st, b.owner, tokens[i].text);
    GivenDelivers(fold, st, raw, tokens, b.owner);
    SlotsCount(fold, took, raw, tokens, i + 1);
    if i + 1 < |tokens| {
      GivenDelivers(fold, took, raw, tokens, b.owner);
      GivenAllDelivers(fold, took, raw, tokens, b.owner, |tokens|);
      assert tokens[i + 1..|tokens|] == tokens[i + 1..];
      PlainIsShaped(GivenAll(took, b.owner, tokens[i + 1..]).slots);
    }
  }

  lemma GivenKeeps(st: State, depth: nat, text: string)
    requires depth < |st.args|
    ensures Given(st, depth, text).path == st.path
  {
  }

  /** One step delivers the tokens it takes, and only those. */
  lemma ConsumeDelivers(fold: string -> string, st: State, raw: string, tokens: seq<Token>)
    requires Scanned(raw, tokens) && |st.slots| < |tokens| && Delivered(fold, st, raw, tokens, |st.slots|)
             && Plain(st.slots)
    ensures Stepped(fold, Consume(fold, st, raw, tokens, |st.slots|), raw, tokens)
  {
    hide Delivered, Plain, Shaped, GivenAll, GivenRaw, FindBinding, Classify, ConsumeFlag, Find, TakesRaw, FlagName;
    SlotsCount(fold, st, raw, tokens, |st.slots|);
    var i, d := |st.slots|, |st.path| - 1;
    var text := tokens[i].text;
    BindingIsNearest(st.path, FlagName(text));
    var binding, kind := FindBinding(st.path, FlagName(text)), Classify(text);
    if TakesRaw(st, text) {
      RawDelivers(fold, st, raw, tokens);
      OtherFields(fold, GivenRaw(st, raw, tokens, i), raw, tokens, |tokens|);
    } else if binding.Some? {
      FlagDelivers(fold, st, raw, tokens, binding.value);
    } else if kind == EndOfOptions || IsFlag(kind) {
      GivenAllDelivers(fold, st, raw, tokens, d, |tokens|);
      assert tokens[i..|tokens|] == tokens[i..];
      PlainIsShaped(GivenAll(st, d, tokens[i..]).slots);
    } else {
      GivenDelivers(fold, st, raw, tokens, d);
      var child := Find(fold, Current(st), text);
      if child.Some? {
        DescendedDelivers(fold, st, raw, tokens, child.value);
      }
      OtherFields(fold, Given(st, d, text), raw, tokens, i + 1);
    }
  }

  lemma OtherFields(fold: string -> string, st: State, raw: string, tokens: seq<Token>, n: nat)
    requires Scanned(raw, tokens) && Delivered(fold, st, raw, tokens, n)
    ensures forall index, variadic, ended ::
              Delivered(fold, st.(index := index, variadic := variadic, optionsEnded := ended), raw, tokens, n)
  {
  }

  lemma {:induction false} WalkDelivers(fold: string -> string, st: State, raw: string, tokens: seq<Token>)
    requires Scanned(raw, tokens) && Delivered(fold, st, raw, tokens, |st.slots|) && Plain(st.slots)
    ensures var o := Walk(fold, st, raw, tokens, |st.slots|);
            o.Went? ==> Delivered(fold, o.state, raw, tokens, |tokens|) && Shaped(o.state.slots)
    decreases |tokens| - |st.slots|
  {
    hide Delivered, Plain, Shaped, Consume;
    SlotsCount(fold, st, raw, tokens, |st.slots|);
    var i := |st.slots|;
    if i >= |tokens| {
      PlainIsShaped(st.slots);
    } else {
      ConsumeDelivers(fold, st, raw, tokens);
      ConsumeForms(fold, st, raw, tokens, i);
      var o := Consume(fold, st, raw, tokens, i);
      if o.Went? && !o.done {
        SlotsCount(fold, o.state, raw, tokens, o.next + 1);
        WalkDelivers(fold, o.state, raw, tokens);
      }
    }
  }

  lemma StartDelivers(fold: string -> string, root: Node, raw: string, tokens: seq<Token>)
    requires Scanned(raw, tokens)
    ensures Delivered(fold, Start(root), raw, tokens, 0) && Plain(Start(root).slots)
  {
  }

  /** Walks the arguments of a line from the command that was found, descending into
      subcommands. On success every token is delivered once: it names a node of the path,
      is an argument of exactly one, or lies in the one raw suffix. */
  method ParseArgs(fold: string -> string, root: Node, raw: string, tokens: seq<Token>) returns (r: Outcome)
    requires Scanned(raw, tokens)
    ensures r == Walk(fold, Start(root), raw, tokens, 0)
    ensures r.Went? ==>
              Delivered(fold, r.state, raw, tokens, |tokens|) && Shaped(r.state.slots) && r.state.path[0] == root
  {
    hide Delivered, Shaped, Plain, Consume, Scanned;
    StartDelivers(fold, root, raw, tokens);
    WalkDelivers(fold, Start(root), raw, tokens);
    var st, i := Start(root), 0;
    while i < |tokens|
      invariant Formed(st) && st.path[0] == root
      invariant Walk(fold, Start(root), raw, tokens, 0) == Walk(fold, st, raw, tokens, i)
      decreases |tokens| - i
    {
      SameRoot(fold, st, raw, tokens, i);
      var o := Consume(fold, st, raw, tokens, i);
      if o.Unknown? || o.done {
        return o;
      }
      st, i := o.state, o.next + 1;
    }
    r := Went(st, i, true);
  }

  lemma SameRoot(fold: string -> string, st: State, raw: string, tokens: seq<Token>, i: nat)
    requires Formed(st) && i < |tokens| && Scanned(raw, tokens)
    ensures var o := Consume(fold, st, raw, tokens, i);
            o.Went? ==> Formed(o.state) && i <= o.next && o.state.path[0] == st.path[0]
  {
    hide Classify, FlagName, GivenAll, Find, FindBinding, TakesRaw, Attached, Resolve;
    ConsumeForms(fold, st, raw, tokens, i);
    GivenAllForms(st, |st.path| - 1, tokens[i..]);
    BindingIsNearest(st.path, FlagName(tokens[i].text));
    var b := FindBinding(st.path, FlagName(tokens[i].text));
    if b.Some? {
      GivenAllForms(Given(st, b.value.owner, tokens[i].text), b.value.owner, tokens[i + 1..]);
    }
  }

  // ----- Completion -----

  /** Where completion believes the cursor to be. */
  datatype Cursor = Cursor(path: seq<Node>, index: nat, expecting: Option<Flag>, passthrough: bool, invalid: bool)

  /** What one of the preceding tokens makes of it; `done` ends the walk, `skip` passes over a flag's value. */
  datatype Move = Move(cursor: Cursor, skip: bool, done: bool)

  function MoveOver(fold: string -> string, c: Cursor, tokens: seq<string>, i: nat): (m: Move)
    requires c.path != [] && i < |tokens|
    ensures m.cursor.path != []
  {
    var node, text := c.path[|c.path| - 1], tokens[i];
    var binding, pos := FindBinding(c.path, FlagName(text)), Resolve(node.positionals, c.index);
    if binding.Some? then OverFlag(c, tokens, i, binding.value.flag)
    else if pos.Some? then OverPositional(c, text, pos.value)
    else
      var child := Find(fold, node, text);
      if child.Some? then Move(c.(path := c.path + [child.value], index := 0), false, false)
      else if node.children != [] then Move(c.(invalid := true), false, true)
      else Move(c.(index := c.index + 1), false, false)
  }

  function OverFlag(c: Cursor, tokens: seq<string>, i: nat, f: Flag): (m: Move)
    requires i < |tokens|
    ensures m.cursor.path == c.path
  {
    if f.boolean || Attached(tokens[i]) then Move(c, false, false)
    else if i + 1 >= |tokens| then Move(c.(expecting := Some(f)), false, true)
    else Move(c, !f.variadic, f.variadic)
  }

  function OverPositional(c: Cursor, text: string, pos: Positional): (m: Move)
    ensures m.cursor.path == c.path
  {
    if pos.passthrough == Partial && IsFlag(Classify(text)) then Move(c.(invalid := true), false, true)
    else if pos.passthrough != NoPassthrough then Move(c.(passthrough := true), false, true)
    else if pos.variadic then Move(c, false, true)
    else Move(c.(index := c.index + 1), false, false)
  }

  function Follow(fold: string -> string, c: Cursor, tokens: seq<string>, i: nat): (r: Cursor)
    requires c.path != []
    ensures r.path != []
    decreases |tokens| - i
  {
    if i >= |tokens| then c
    else
      var m := MoveOver(fold, c, tokens, i);
      if m.done then m.cursor else Follow(fold, m.cursor, tokens, i + if m.skip then 2 else 1)
  }

  method ClassifyForCompletion(fold: string -> string, root: Node, tokens: seq<string>) returns (c: Cursor)
    ensures c == Follow(fold, Cursor([root], 0, None, false, false), tokens, 0)
  {
    hide MoveOver;
    c := Cursor([root], 0, None, false, false);
    var i := 0;
    while i < |tokens|
      invariant c.path != []
      invariant Follow(fold, Cursor([root], 0, None, false, false), tokens, 0) == Follow(fold, c, tokens, i)
      decreases |tokens| - i
    {
      var m := MoveOver(fold, c, tokens, i);
      c := m.cursor;
      if m.done {
        return;
      }
      i := i + if m.skip then 2 else 1;
    }
  }

  // ----- The two walks agree -----

  /** An option or a bare `--` that no node of the path declares and no passthrough argument
      starts with, or a declared `--` where a passthrough argument takes it first. */
  predicate Stray(st: State, text: string)
    requires Formed(st)
  {
    var known, kind := FindBinding(st.path, FlagName(text)).Some?, Classify(text);
    if known then kind == EndOfOptions && TakesRaw(st, text)
    else (kind == EndOfOptions || IsFlag(kind)) && !TakesRaw(st, text)
  }

  /** The parser meets no stray option on its way. */
  predicate Clean(fold: string -> string, st: State, raw: string, tokens: seq<Token>, i: nat)
    requires Formed(st) && Scanned(raw, tokens)
    decreases |tokens| - i
  {
    if i >= |tokens| then true
    else
      ConsumeForms(fold, st, raw, tokens, i);
      var o := Consume(fold, st, raw, tokens, i);
      !Stray(st, tokens[i].text) && (o.Went? && !o.done ==> Clean(fold, o.state, raw, tokens, o.next + 1))
  }

  function TextsOf(tokens: seq<Token>): seq<string> { seq(|tokens|, i requires 0 <= i < |tokens| => tokens[i].text) }

  /** Both walks stand at the same node and see the same positional there, if any. */
  predicate Together(st: State, c: Cursor) {
    && Formed(st) && c.path == st.path && !st.variadic && !c.invalid
    && (st.index == c.index ||
        (Resolve(Current(st).positionals, st.index).None? && Resolve(Current(st).positionals, c.index).None?))
  }

  lemma FlagStays(st: State, tokens: seq<Token>, i: nat, b: Binding)
    requires i < |tokens| && b.owner < |st.args|
    ensures var o := ConsumeFlag(st, tokens, i, b);
            o.Went? && o.state == st.(args := o.state.args, slots := o.state.slots) && |o.state.args| == |st.args|
    ensures var o, f := ConsumeFlag(st, tokens, i, b), b.flag;
            && (o.done <==> !f.boolean && !Attached(tokens[i].text) && i + 1 < |tokens| && f.variadic)
            && (!o.done ==> o.next == if f.boolean || Attached(tokens[i].text) || i + 1 >= |tokens| then i else i + 1)
  {
    hide Attached;
    GivenAllForms(Given(st, b.owner, tokens[i].text), b.owner, tokens[i + 1..]);
  }

  /** In the middle of a variadic positional, which takes no raw suffix. */
  predicate InVariadic(st: State) {
    && Formed(st) && st.variadic
    && var pos := Resolve(Current(st).positionals, st.index); pos.Some? && pos.value.passthrough == NoPassthrough
  }

  lemma VariadicStep(fold: string -> string, st: State, raw: string, tokens: seq<Token>, i: nat)
    requires InVariadic(st) && Scanned(raw, tokens) && i < |tokens|
    ensures var o := Consume(fold, st, raw, tokens, i);
            o.Went? && o.state.path == st.path && InVariadic(o.state)
  {
    hide Classify, FlagName, GivenAll, ConsumeFlag, Find, FindBinding, IsFlag, Resolve;
    var text, d := tokens[i].text, |st.path| - 1;
    assert !TakesRaw(st, text);
    BindingIsNearest(st.path, FlagName(text));
    var b := FindBinding(st.path, FlagName(text));
    GivenAllForms(st, d, tokens[i..]);
    if b.Some? {
      FlagStays(st, tokens, i, b.value);
    }
  }

  /** Once a variadic positional has begun, nothing moves the parser off its node or stops it. */
  lemma {:induction false} VariadicStays(fold: string -> string, st: State, raw: string, tokens: seq<Token>, i: nat)
    requires InVariadic(st) && Scanned(raw, tokens)
    ensures var o := Walk(fold, st, raw, tokens, i); o.Went? && o.state.path == st.path
    decreases |tokens| - i
  {
    hide Consume;
    if i < |tokens| {
      ConsumeForms(fold, st, raw, tokens, i);
      VariadicStep(fold, st, raw, tokens, i);
      var o := Consume(fold, st, raw, tokens, i);
      if !o.done {
        VariadicStays(fold, o.state, raw, tokens, o.next + 1);
      }
    }
  }

  /** How one step of the parser and one of completion compare. */
  ghost predicate StepsAgree(fold: string -> string, st: State, c: Cursor, raw: string, tokens: seq<Token>, i: nat)
    requires Formed(st) && Scanned(raw, tokens) && i < |tokens| && c.path != []
  {
    var o, m := Consume(fold, st, raw, tokens, i), MoveOver(fold, c, TextsOf(tokens), i);
    if o.Unknown? then m.done && m.cursor.invalid
    else
      && o.state.path == m.cursor.path && !m.cursor.invalid
      && (if m.done then o.done || o.next + 1 >= |tokens| || InVariadic(o.state)
          else !o.done && Together(o.state, m.cursor) && o.next + 1 == i + (if m.skip then 2 else 1))
  }

  lemma FlagAgrees(fold: string -> string, st: State, c: Cursor, raw: string, tokens: seq<Token>, i: nat)
    requires Scanned(raw, tokens) && i < |tokens| && Together(st, c) && !TakesRaw(st, tokens[i].text)
    requires FindBinding(st.path, FlagName(tokens[i].text)).Some?
    ensures StepsAgree(fold, st, c, raw, tokens, i)
  {
    hide Classify, FlagName, GivenAll, ConsumeFlag, Find, FindBinding, Attached, TakesRaw, Resolve;
    BindingIsNearest(st.path, FlagName(tokens[i].text));
    FlagStays(st, tokens, i, FindBinding(st.path, FlagName(tokens[i].text)).value);
  }

  lemma PlainAgrees(fold: string -> string, st: State, c: Cursor, raw: string, tokens: seq<Token>, i: nat)
    requires Scanned(raw, tokens) && i < |tokens| && Together(st, c) && !Stray(st, tokens[i].text)
    requires FindBinding(st.path, FlagName(tokens[i].text)).None?
    ensures StepsAgree(fold, st, c, raw, tokens, i)
  {
    hide Classify, FlagName, GivenAll, ConsumeFlag, Find, FindBinding, Attached;
  }

  lemma OneStepAgrees(fold: string -> string, st: State, c: Cursor, raw: string, tokens: seq<Token>, i: nat)
    requires Scanned(raw, tokens) && i < |tokens| && Together(st, c) && !Stray(st, tokens[i].text)
    ensures StepsAgree(fold, st, c, raw, tokens, i)
  {
    hide StepsAgree, Classify, FindBinding, FlagName, Resolve;
    if FindBinding(st.path, FlagName(tokens[i].text)).Some? {
      FlagAgrees(fold, st, c, raw, tokens, i);
    } else {
      PlainAgrees(fold, st, c, raw, tokens, i);
    }
  }

  lemma TogetherMeans(st: State, c: Cursor)
    requires Together(st, c)
    ensures Formed(st) && c.path == st.path && !c.invalid && c.path != []
  {
  }

  lemma TextsCount(tokens: seq<Token>)
    ensures |TextsOf(tokens)| == |tokens|
  {
  }

  /** The two walks end at the same node, or both give up. */
  predicate Alike(o: Outcome, f: Cursor) { (f.invalid <==> o.Unknown?) && (o.Went? ==> f.path == o.state.path) }

  // ----- Exactly when stray options part them -----

  /** The tokens from `i` on that are no declared flag and no value of one. */
  function Bare(path: seq<Node>, tokens: seq<string>, i: nat): seq<string>
    decreases |tokens| - i
  {
    if i >= |tokens| then []
    else
      var binding := FindBinding(path, FlagName(tokens[i]));
      if binding.None? then [tokens[i]] + Bare(path, tokens, i + 1)
      else if binding.value.flag.boolean || Attached(tokens[i]) then Bare(path, tokens, i + 1)
      else if i + 1 >= |tokens| || binding.value.flag.variadic then []
      else Bare(path, tokens, i + 2)
  }

  /** Completion has no place for this argument on the node, or takes it for a subcommand. */
  predicate Refused(n: Node, index: nat, text: string) {
    match Resolve(n.positionals, index)
    case None => n.children != []
    case Some(pos) => pos.passthrough == Partial && IsFlag(Classify(text))
  }

  /** Completion passes over an argument at this place and looks at the next. */
  predicate Passed(n: Node, index: nat) {
    match Resolve(n.positionals, index)
    case None => n.children == []
    case Some(pos) => pos.passthrough == NoPassthrough && !pos.variadic
  }

  /** The first of the arguments that is not simply passed over is refused. */
  predicate Overruns(n: Node, index: nat, args: seq<string>)
    decreases |args|
  {
    args != [] && (Refused(n, index, args[0]) || (Passed(n, index) && Overruns(n, index + 1, args[1..])))
  }

  lemma {:induction false} FollowOnlyDescends(fold: string -> string, c: Cursor, tokens: seq<string>, i: nat)
    requires c.path != []
    ensures |Follow(fold, c, tokens, i).path| >= |c.path|
    decreases |tokens| - i
  {
    hide FindBinding, FlagName, Attached, Classify, Find, Resolve;
    if i < |tokens| {
      var m := MoveOver(fold, c, tokens, i);
      if !m.done {
        FollowOnlyDescends(fold, m.cursor, tokens, i + if m.skip then 2 else 1);
      }
    }
  }

  lemma FoundIsChild(fold: string -> string, n: Node, name: string)
    ensures n.children == [] ==> Find(fold, n, name).None?
  {
  }

  predicate Stayed(c: Cursor, f: Cursor) { f.path == c.path && !f.invalid }

  lemma OverArgument(fold: string -> string, c: Cursor, tokens: seq<string>, i: nat)
    requires c.path != [] && i < |tokens| && !c.invalid && FindBinding(c.path, FlagName(tokens[i])).None?
    ensures var node, m := c.path[|c.path| - 1], MoveOver(fold, c, tokens, i);
            if Refused(node, c.index, tokens[i]) then
              (m.done && m.cursor.invalid) || (!m.done && !m.skip && |m.cursor.path| > |c.path|)
            else if Passed(node, c.index) then m == Move(c.(index := c.index + 1), false, false)
            else m.done && Stayed(c, m.cursor)
  {
    hide FlagName, Attached, Classify, Find, Resolve, FindBinding, IsFlag;
    FoundIsChild(fold, c.path[|c.path| - 1], tokens[i]);
  }

  lemma OverDeclared(fold: string -> string, c: Cursor, tokens: seq<string>, i: nat)
    requires c.path != [] && i < |tokens| && !c.invalid && FindBinding(c.path, FlagName(tokens[i])).Some?
    ensures var m := MoveOver(fold, c, tokens, i);
            && Stayed(c, m.cursor) && m.cursor.index == c.index
            && Bare(c.path, tokens, i) == if m.done then [] else Bare(c.path, tokens, i + if m.skip then 2 else 1)
  {
    hide FlagName, Attached, Classify, Find, Resolve, FindBinding, IsFlag;
  }

  /** Completion stays on its node exactly when the arguments left do not overrun it. */
  lemma {:induction false} FollowStaysExactly(fold: string -> string, c: Cursor, tokens: seq<string>, i: nat)
    requires c.path != [] && !c.invalid
    ensures Stayed(c, Follow(fold, c, tokens, i)) <==> !Overruns(c.path[|c.path| - 1], c.index, Bare(c.path, tokens, i))
    decreases |tokens| - i
  {
    hide FlagName, FindBinding, MoveOver, Refused, Passed;
    if i < |tokens| {
      var m := MoveOver(fold, c, tokens, i);
      if FindBinding(c.path, FlagName(tokens[i])).Some? {
        OverDeclared(fold, c, tokens, i);
        if !m.done {
          FollowStaysExactly(fold, m.cursor, tokens, i + if m.skip then 2 else 1);
        }
      } else {
        OverArgument(fold, c, tokens, i);
        var rest := Bare(c.path, tokens, i + 1);
        assert Bare(c.path, tokens, i) == [tokens[i]] + rest && ([tokens[i]] + rest)[1..] == rest;
        hide Bare;
        if !m.done {
          FollowOnlyDescends(fold, m.cursor, tokens, i + 1);
          if m.cursor.path == c.path {
            FollowStaysExactly(fold, m.cursor, tokens, i + 1);
          }
        }
      }
    }
  }

  lemma StrayStops(fold: string -> string, st: State, raw: string, tokens: seq<Token>, i: nat)
    requires Formed(st) && Scanned(raw, tokens) && i < |tokens| && Stray(st, tokens[i].text)
    ensures var o := Walk(fold, st, raw, tokens, i); o.Went? && o.state.path == st.path
  {
    hide Classify, FlagName, GivenAll, ConsumeFlag, Find, FindBinding, IsFlag, Resolve;
    ConsumeForms(fold, st, raw, tokens, i);
    GivenAllForms(st, |st.path| - 1, tokens[i..]);
  }

  /** At a stray option the parser keeps the rest of the line for later and completion reads on;
      they part exactly when what completion reads as arguments overruns the node. */
  lemma StrayOptionsPartThem(fold: string -> string, st: State, c: Cursor, raw: string, tokens: seq<Token>, i: nat)
    requires Scanned(raw, tokens) && i < |tokens| && Together(st, c) && Stray(st, tokens[i].text)
    ensures Alike(Walk(fold, st, raw, tokens, i), Follow(fold, c, TextsOf(tokens), i)) <==>
            !Overruns(Current(st), c.index, Bare(st.path, TextsOf(tokens), i))
  {
    hide Stray, Together, TextsOf, Overruns, Walk, Follow;
    TogetherMeans(st, c);
    StrayStops(fold, st, raw, tokens, i);
    FollowStaysExactly(fold, c, TextsOf(tokens), i);
  }

  lemma {:induction false} PastTheLast(n: Node, a: nat, b: nat, args: seq<string>)
    requires Resolve(n.positionals, a).None? && Resolve(n.positionals, b).None?
    ensures Overruns(n, a, args) <==> Overruns(n, b, args)
    decreases |args|
  {
    if args != [] {
      PastTheLast(n, a + 1, b + 1, args[1..]);
    }
  }

  /** The first stray option the parser meets before a variadic positional begins, if any, leaves
      no more arguments than its node has room for. */
  predicate StraysFit(fold: string -> string, st: State, raw: string, tokens: seq<Token>, i: nat)
    requires Formed(st) && Scanned(raw, tokens)
    decreases |tokens| - i
  {
    if i >= |tokens| || st.variadic then true
    else if Stray(st, tokens[i].text) then !Overruns(Current(st), st.index, Bare(st.path, TextsOf(tokens), i))
    else
      ConsumeForms(fold, st, raw, tokens, i);
      var o := Consume(fold, st, raw, tokens, i);
      o.Went? && !o.done ==> StraysFit(fold, o.state, raw, tokens, o.next + 1)
  }

  lemma StrayAlike(fold: string -> string, st: State, c: Cursor, raw: string, tokens: seq<Token>, i: nat)
    requires Scanned(raw, tokens) && i < |tokens| && Together(st, c) && Stray(st, tokens[i].text)
    ensures Alike(Walk(fold, st, raw, tokens, i), Follow(fold, c, TextsOf(tokens), i)) <==>
              StraysFit(fold, st, raw, tokens, i)
  {
    hide Stray, Walk, Follow, Resolve, Alike, Overruns;
    var args := Bare(st.path, TextsOf(tokens), i);
    StrayOptionsPartThem(fold, st, c, raw, tokens, i);
    if st.index != c.index {
      PastTheLast(Current(st), st.index, c.index, args);
    }
  }

  /** How one step that meets no stray option leaves the two walks. */
  lemma StepAlike(fold: string -> string, st: State, c: Cursor, raw: string, tokens: seq<Token>, i: nat)
    requires Scanned(raw, tokens) && i < |tokens| && Together(st, c) && !Stray(st, tokens[i].text)
    requires var o, m := Consume(fold, st, raw, tokens, i), MoveOver(fold, c, TextsOf(tokens), i);
             o.Unknown? || m.done
    ensures Alike(Walk(fold, st, raw, tokens, i), Follow(fold, c, TextsOf(tokens), i))
            && StraysFit(fold, st, raw, tokens, i)
  {
    hide Consume, MoveOver, Stray, Resolve, TextsOf, Overruns, Bare;
    TextsCount(tokens);
    ConsumeForms(fold, st, raw, tokens, i);
    OneStepAgrees(fold, st, c, raw, tokens, i);
    var o := Consume(fold, st, raw, tokens, i);
    if o.Went? && !o.done && o.next + 1 < |tokens| {
      VariadicStays(fold, o.state, raw, tokens, o.next + 1);
    }
  }

  lemma {:induction false} AlikeExactly(fold: string -> string, st: State, c: Cursor, raw: string, tokens: seq<Token>,
                                        i: nat)
    requires Scanned(raw, tokens) && Together(st, c)
    ensures Alike(Walk(fold, st, raw, tokens, i), Follow(fold, c, TextsOf(tokens), i)) <==>
              StraysFit(fold, st, raw, tokens, i)
    decreases |tokens| - i
  {
    hide Consume, MoveOver, Stray, Resolve, TextsOf, Alike, Overruns, Bare;
    TextsCount(tokens);
    if i < |tokens| {
      ConsumeForms(fold, st, raw, tokens, i);
      var o, m := Consume(fold, st, raw, tokens, i), MoveOver(fold, c, TextsOf(tokens), i);
      if Stray(st, tokens[i].text) {
        StrayAlike(fold, st, c, raw, tokens, i);
      } else if o.Unknown? || m.done {
        StepAlike(fold, st, c, raw, tokens, i);
      } else {
        OneStepAgrees(fold, st, c, raw, tokens, i);
        AlikeExactly(fold, o.state, m.cursor, raw, tokens, o.next + 1);
      }
    } else {
      TogetherMeans(st, c);
      assert Alike(Walk(fold, st, raw, tokens, i), Follow(fold, c, TextsOf(tokens), i)) by { BothDone(st, c, i); }
    }
  }

  lemma BothDone(st: State, c: Cursor, i: nat)
    requires Together(st, c)
    ensures Alike(Went(st, i, true), c)
  {
  }

  /** On any line at all, completion ends where the parser ends, and gives up where it gives up,
      exactly when the first stray option leaves no more arguments than its node has room for. */
  lemma CompletionFollowsExactly(fold: string -> string, root: Node, raw: string, tokens: seq<Token>)
    requires Scanned(raw, tokens)
    ensures Alike(Walk(fold, Start(root), raw, tokens, 0),
                  Follow(fold, Cursor([root], 0, None, false, false), TextsOf(tokens), 0)) <==>
            StraysFit(fold, Start(root), raw, tokens, 0)
  {
    AlikeExactly(fold, Start(root), Cursor([root], 0, None, false, false), raw, tokens, 0);
  }

  lemma {:induction false} CleanFits(fold: string -> string, st: State, raw: string, tokens: seq<Token>, i: nat)
    requires Formed(st) && Scanned(raw, tokens) && Clean(fold, st, raw, tokens, i)
    ensures StraysFit(fold, st, raw, tokens, i)
    decreases |tokens| - i
  {
    hide Consume, Stray;
    if i < |tokens| && !st.variadic {
      ConsumeForms(fold, st, raw, tokens, i);
      var o := Consume(fold, st, raw, tokens, i);
      if o.Went? && !o.done {
        CleanFits(fold, o.state, raw, tokens, o.next + 1);
      }
    }
  }

  /** On a line without stray options, completion ends at the node the parser ends at, and
      calls the line invalid exactly when the parser meets an unknown subcommand. */
  lemma CompletionFollowsTheParser(fold: string -> string, root: Node, raw: string, tokens: seq<Token>)
    requires Scanned(raw, tokens) && Clean(fold, Start(root), raw, tokens, 0)
    ensures Alike(Walk(fold, Start(root), raw, tokens, 0),
                  Follow(fold, Cursor([root], 0, None, false, false), TextsOf(tokens), 0))
  {
    hide Walk, Follow, StraysFit, Clean;
    CleanFits(fold, Start(root), raw, tokens, 0);
    CompletionFollowsExactly(fold, root, raw, tokens);
  }

  /** A stray option at the front of the line parts them on any node with children and no positionals. */
  lemma StrayFirstOptionPartsThem(fold: string -> string, root: Node, raw: string, tokens: seq<Token>)
    requires Scanned(raw, tokens) && tokens != [] && root.positionals == [] && root.children != []
    requires var text := tokens[0].text;
             IsFlag(Classify(text)) && Nearest([root], FlagName(text)).None? && Find(fold, root, text).None?
    ensures var o := Walk(fold, Start(root), raw, tokens, 0);
            var f := Follow(fold, Cursor([root], 0, None, false, false), TextsOf(tokens), 0);
            f.invalid && o.Went? && o.state.path == [root]
  {
    hide Classify, FlagName, Nearest, Find, GivenAll;
    BindingIsNearest([root], FlagName(tokens[0].text));
    GivenAllForms(Start(root), 0, tokens[0..]);
    ConsumeForms(fold, Start(root), raw, tokens, 0);
    TextsCount(tokens);
  }

  // ----- Scanning -----

  /** A token is a longest run of characters that are no space. */
  predicate Run(space: char -> bool, raw: string, t: Token) {
    var end := t.start + |t.text|;
    && t.text != [] && end <= |raw| && raw[t.start..end] == t.text && (forall c | c in t.text :: !space(c))
    && (t.start > 0 ==> space(raw[t.start - 1])) && (end < |raw| ==> space(raw[end]))
  }

  /** The tokens found so far, in order, cover every character before a place that is no space. */
  ghost predicate Covers(space: char -> bool, raw: string, tokens: seq<Token>, n: nat)
    requires n <= |raw|
  {
    && (forall i | 0 <= i < |tokens| :: Run(space, raw, tokens[i]) && tokens[i].start + |tokens[i].text| <= n)
    && (forall i, j | 0 <= i < j < |tokens| :: tokens[i].start + |tokens[i].text| < tokens[j].start)
    && forall p | 0 <= p < n && !space(raw[p]) :: exists t | t in tokens :: t.start <= p < t.start + |t.text|
  }

  method ScanTokens(space: char -> bool, raw: string) returns (tokens: seq<Token>)
    ensures Covers(space, raw, tokens, |raw|) && Scanned(raw, tokens)
  {
    tokens := [];
    var i := 0;
    while i < |raw|
      invariant 0 <= i <= |raw| && Covers(space, raw, tokens, i)
      invariant i == 0 || space(raw[i - 1]) || i == |raw| || space(raw[i])
    {
      var start := SkipWhile(raw, i, space);
      if start >= |raw| {
        SpacesCovered(space, raw, tokens, i, |raw|);
        i := start;
        break;
      }
      SpacesCovered(space, raw, tokens, i, start);
      var end := SkipWhile(raw, start, c => !space(c));
      TokenCovered(space, raw, tokens, start, end);
      tokens := tokens + [Token(raw[start..end], start)];
      i := end;
    }
  }

  method SkipWhile(raw: string, i: nat, over: char -> bool) returns (j: nat)
    requires i <= |raw|
    ensures i <= j <= |raw| && (forall p | i <= p < j :: over(raw[p])) && (j < |raw| ==> !over(raw[j]))
  {
    j := i;
    while j < |raw| && over(raw[j])
      invariant i <= j <= |raw| && forall p | i <= p < j :: over(raw[p])
    {
      j := j + 1;
    }
  }

  lemma SpacesCovered(space: char -> bool, raw: string, tokens: seq<Token>, i: nat, n: nat)
    requires i <= n <= |raw| && Covers(space, raw, tokens, i) && forall p | i <= p < n :: space(raw[p])
    ensures Covers(space, raw, tokens, n)
  {
  }

  lemma TokenCovered(space: char -> bool, raw: string, tokens: seq<Token>, start: nat, end: nat)
    requires start < end <= |raw| && Covers(space, raw, tokens, start)
    requires (start > 0 ==> space(raw[start - 1])) && (end < |raw| ==> space(raw[end]))
    requires forall p | start <= p < end :: !space(raw[p])
    ensures Covers(space, raw, tokens + [Token(raw[start..end], start)], end)
  {
    var t := Token(raw[start..end], start);
    assert Run(space, raw, t);
    EarlierEnd(space, raw, tokens, start);
    hide Run;
    var more := tokens + [t];
    forall p | 0 <= p < end && !space(raw[p])
      ensures exists u | u in more :: u.start <= p < u.start + |u.text|
    {
      if p < start {
        var u :| u in tokens && u.start <= p < u.start + |u.text|;
        assert u in more;
      } else {
        assert t in more;
      }
    }
  }

  lemma EarlierEnd(space: char -> bool, raw: string, tokens: seq<Token>, start: nat)
    requires start < |raw| && Covers(space, raw, tokens, start) && !space(raw[start])
    ensures forall i | 0 <= i < |tokens| :: tokens[i].start + |tokens[i].text| < start
  {
    forall i | 0 <= i < |tokens|
      ensures tokens[i].start + |tokens[i].text| < start
    {
      assert Run(space, raw, tokens[i]);
    }
  }
}