/** What the parser and completion make of one token, said of the line's own characters and
    of the flags and positionals the nodes declare. */
module CommandLaws {
  import opened Options
  import opened CommandLine

  // ----- Characters -----

  /** An option as a user writes one: a dash and something after it that is no digit. */
  predicate IsOption(text: string) { |text| > 1 && text[0] == '-' && text != "--" && !('0' <= text[1] <= '9') }

  /** The name a token would give a flag. A long one may carry its value behind the first equals sign. */
  predicate Key(text: string, name: string, attached: bool) {
    if attached then |name| > 2 && "--" <= name && '=' !in name && name + "=" <= text
    else name == text && ("--" <= text ==> '=' !in text || text[2] == '=')
  }

  lemma {:induction false} FirstEquals(text: string, i: nat)
    requires i <= |text|
    ensures var e := IndexOfEquals(text, i);
            i <= e <= |text| && (forall k | i <= k < e :: text[k] != '=') && (e < |text| ==> text[e] == '=')
    decreases |text| - i
  {
    if i < |text| && text[i] != '=' {
      FirstEquals(text, i + 1);
    }
  }

  lemma KeyOf(text: string, name: string, attached: bool)
    requires Key(text, name, attached)
    ensures FlagName(text) == name && (Attached(text) <==> attached)
  {
    var e := IndexOfEquals(text, 0);
    FirstEquals(text, 0);
    if attached {
      assert text[|name|] == (name + "=")[|name|] == '=';
      NoneBefore(text, name);
      assert e == |name|;
    }
  }

  lemma NoneBefore(text: string, name: string)
    requires name <= text && '=' !in name
    ensures forall k | 0 <= k < |name| :: text[k] != '='
  {
    forall k | 0 <= k < |name|
      ensures text[k] != '='
    {
      assert text[k] == name[k] && name[k] in name;
    }
  }

  lemma OptionIs(text: string)
    ensures IsFlag(Classify(text)) <==> IsOption(text)
    ensures Classify(text) == EndOfOptions <==> text == "--"
  {
    if |text| > 1 && text[0] == '-' && text[1] == '-' {
      assert text == "--" || "--" <= text;
    }
    assert |text| > 0 && text[0] == '-' <==> "-" <= text;
  }

  // ----- Declarations -----

  /** The flag is declared by the node at that depth, not again further on in its list, and
      by no node below. */
  predicate DeclaredAt(path: seq<Node>, name: string, depth: nat, f: Flag) {
    && depth < |path| && f.name == name && LastAmong(path[depth].flags, f)
    && forall d | depth < d < |path| :: Lacks(path[d].flags, name)
  }

  predicate LastAmong(fs: seq<Flag>, f: Flag) {
    exists j | 0 <= j < |fs| :: fs[j] == f && LacksFrom(fs, j + 1, f.name)
  }

  predicate LacksFrom(fs: seq<Flag>, i: nat, name: string) { forall j | i <= j < |fs| :: fs[j].name != name }

  predicate Lacks(fs: seq<Flag>, name: string) { forall j | 0 <= j < |fs| :: fs[j].name != name }

  predicate Undeclared(path: seq<Node>, name: string) { forall d | 0 <= d < |path| :: Lacks(path[d].flags, name) }

  lemma {:induction false} LastOfOwn(fs: seq<Flag>, depth: nat, name: string)
    ensures var r := LastNamed(OwnOf(fs, depth), name);
            && (r.None? <==> Lacks(fs, name))
            && (r.Some? ==> r.value.owner == depth && r.value.flag.name == name && LastAmong(fs, r.value.flag))
  {
    if fs != [] {
      var n := |fs| - 1;
      LastOfOwn(fs[..n], depth, name);
      assert OwnOf(fs, depth)[..n] == OwnOf(fs[..n], depth);
      if fs[n].name == name {
        assert LacksFrom(fs, n + 1, name);
      } else {
        LastStays(fs, name);
        assert Lacks(fs, name) <==> Lacks(fs[..n], name);
      }
    }
  }

  function OwnOf(fs: seq<Flag>, depth: nat): seq<Binding> {
    seq(|fs|, i requires 0 <= i < |fs| => Binding(depth, fs[i]))
  }

  lemma LastStays(fs: seq<Flag>, name: string)
    requires fs != [] && fs[|fs| - 1].name != name
    ensures forall f: Flag | f.name == name && LastAmong(fs[..|fs| - 1], f) :: LastAmong(fs, f)
  {
    var n := |fs| - 1;
    forall f: Flag | f.name == name && LastAmong(fs[..n], f)
      ensures LastAmong(fs, f)
    {
      var j :| 0 <= j < n && fs[..n][j] == f && LacksFrom(fs[..n], j + 1, name);
      assert fs[j] == f && LacksFrom(fs, j + 1, name);
    }
  }

  lemma {:induction false} NearestIs(path: seq<Node>, name: string)
    ensures var r := Nearest(path, name);
            && (r.None? <==> Undeclared(path, name))
            && (r.Some? ==> DeclaredAt(path, name, r.value.owner, r.value.flag))
  {
    if path != [] {
      var n := |path| - 1;
      NearestIs(path[..n], name);
      LastOfOwn(path[n].flags, n, name);
      assert Own(path[n], n) == OwnOf(path[n].flags, n);
      var own, above := LastNamed(Own(path[n], n), name), Nearest(path[..n], name);
      hide LastAmong, Lacks, Own;
      assert own.None? && above.Some? ==> DeclaredAt(path, name, above.value.owner, above.value.flag);
    }
  }

  lemma OneDeclares(path: seq<Node>, name: string, a: nat, f: Flag, b: nat, g: Flag)
    requires DeclaredAt(path, name, a, f) && DeclaredAt(path, name, b, g)
    ensures a == b && f == g
  {
    assert a == b by {
      if a < b {
        LastIsThere(path[b].flags, g);
      } else if b < a {
        LastIsThere(path[a].flags, f);
      }
    }
    var fs := path[a].flags;
    LastIsUnique(fs, f, g);
  }

  lemma LastIsThere(fs: seq<Flag>, f: Flag)
    requires LastAmong(fs, f)
    ensures !Lacks(fs, f.name)
  {
  }

  lemma LastIsUnique(fs: seq<Flag>, f: Flag, g: Flag)
    requires LastAmong(fs, f) && LastAmong(fs, g) && f.name == g.name
    ensures f == g
  {
    var j :| 0 <= j < |fs| && fs[j] == f && LacksFrom(fs, j + 1, f.name);
    var k :| 0 <= k < |fs| && fs[k] == g && LacksFrom(fs, k + 1, g.name);
    assert j == k;
  }

  /** A flag's name stands for the last declaration at the nearest node that has one. */
  lemma FlagIsTheNearest(path: seq<Node>, name: string, depth: nat, f: Flag)
    ensures FindBinding(path, name) == Some(Binding(depth, f)) <==> DeclaredAt(path, name, depth, f)
    ensures FindBinding(path, name).None? <==> Undeclared(path, name)
  {
    BindingIsNearest(path, name);
    NearestIs(path, name);
    hide FindBinding, Nearest, DeclaredAt, Undeclared;
    var r := Nearest(path, name);
    if r.Some? && DeclaredAt(path, name, depth, f) {
      OneDeclares(path, name, depth, f, r.value.owner, r.value.flag);
    }
    if r.None? && DeclaredAt(path, name, depth, f) {
      DeclaredIsNotLacking(path, name, depth, f);
    }
  }

  lemma DeclaredIsNotLacking(path: seq<Node>, name: string, depth: nat, f: Flag)
    requires DeclaredAt(path, name, depth, f)
    ensures !Undeclared(path, name)
  {
    LastIsThere(path[depth].flags, f);
  }

  // ----- Places -----

  /** The positional the next plain argument is for; the last one, if variadic, is for all that follow. */
  predicate Stands(ps: seq<Positional>, index: nat, p: Positional) {
    if index < |ps| then p == ps[index] else ps != [] && p == ps[|ps| - 1] && p.variadic
  }

  predicate Exhausted(ps: seq<Positional>, index: nat) { index >= |ps| && (ps != [] ==> !ps[|ps| - 1].variadic) }

  /** The place reads its arguments one by one. */
  ghost predicate Ordinary(st: State)
    requires Formed(st)
  {
    forall p | Stands(Current(st).positionals, st.index, p) :: p.passthrough == NoPassthrough
  }

  function Rest(depth: nat, n: nat): seq<Slot> { seq(n, _ => ArgOf(depth)) }

  /** Where the tokens went, whose arguments changed or not; the arguments themselves follow from the slots. */
  predicate Sent(o: Outcome, st: State, slots: seq<Slot>, next: nat, done: bool) {
    && o.Went? && o.next == next && o.done == done && o.state.slots == st.slots + slots
    && o.state == st.(args := o.state.args, slots := o.state.slots)
  }

  lemma {:induction false} AllGiven(st: State, depth: nat, tokens: seq<Token>)
    requires depth < |st.args|
    ensures GivenAll(st, depth, tokens).slots == st.slots + Rest(depth, |tokens|)
    ensures GivenAll(st, depth, tokens) == st.(args := GivenAll(st, depth, tokens).args,
                                               slots := GivenAll(st, depth, tokens).slots)
  {
    if tokens != [] {
      var n := |tokens| - 1;
      AllGiven(st, depth, tokens[..n]);
      assert Rest(depth, n) + [ArgOf(depth)] == Rest(depth, n + 1);
      assert GivenAll(st, depth, tokens).slots == GivenAll(st, depth, tokens[..n]).slots + [ArgOf(depth)];
    }
  }

  lemma NotRaw(st: State, text: string)
    requires Formed(st) && Ordinary(st)
    ensures !TakesRaw(st, text)
  {
    hide FindBinding, Classify, FlagName;
    var ps, r := Current(st).positionals, Resolve(Current(st).positionals, st.index);
    if r.Some? {
      assert Stands(ps, st.index, r.value);
    }
  }

  lemma FlagIsNotRaw(st: State, text: string, name: string, attached: bool, depth: nat, f: Flag)
    requires Formed(st) && Key(text, name, attached) && DeclaredAt(st.path, name, depth, f)
    requires text == "--" ==> Ordinary(st)
    ensures !TakesRaw(st, text)
  {
    if text == "--" {
      NotRaw(st, text);
    }
    KeyOf(text, name, attached);
    OptionIs(text);
    FlagIsTheNearest(st.path, name, depth, f);
    hide FindBinding, Classify, FlagName, Key, DeclaredAt, Attached, Resolve, IsFlag, Ordinary;
  }

  // ----- One token of the parser -----

  /** A declared flag, and its value if it takes one that is not attached, go to the node
      that declares it, whatever positional waits; a variadic flag takes all that is left. */
  lemma FlagTakesItsValue(fold: string -> string, st: State, raw: string, tokens: seq<Token>, i: nat, name: string,
                          attached: bool, depth: nat, f: Flag)
    requires Formed(st) && i < |tokens| && Scanned(raw, tokens)
    requires tokens[i].text == "--" ==> Ordinary(st)
    requires Key(tokens[i].text, name, attached) && DeclaredAt(st.path, name, depth, f)
    ensures var o := Consume(fold, st, raw, tokens, i);
            if f.boolean || attached || i + 1 == |tokens| then Sent(o, st, [ArgOf(depth)], i, false)
            else if f.variadic then Sent(o, st, Rest(depth, |tokens| - i), |tokens|, true)
            else Sent(o, st, [ArgOf(depth), ArgOf(depth)], i + 1, false)
  {
    FlagIsNotRaw(st, tokens[i].text, name, attached, depth, f);
    KeyOf(tokens[i].text, name, attached);
    FlagIsTheNearest(st.path, name, depth, f);
    BindingIsNearest(st.path, name);
    hide FindBinding, Classify, FlagName, Key, DeclaredAt, Attached, TakesRaw, Ordinary, GivenAll, Nearest;
    var took := Given(st, depth, tokens[i].text);
    AllGiven(took, depth, tokens[i + 1..]);
    assert [ArgOf(depth)] + Rest(depth, |tokens| - i - 1) == Rest(depth, |tokens| - i);
    assert (st.slots + [ArgOf(depth)]) + Rest(depth, |tokens| - i - 1)
           == st.slots + ([ArgOf(depth)] + Rest(depth, |tokens| - i - 1));
    assert (st.slots + [ArgOf(depth)]) + [ArgOf(depth)] == st.slots + [ArgOf(depth), ArgOf(depth)];
  }

  /** An option no node of the path declares, or two dashes, end the parse: the current node
      is given all that is left. */
  lemma StrayOptionEndsTheParse(fold: string -> string, st: State, raw: string, tokens: seq<Token>, i: nat,
                                name: string, attached: bool)
    requires Formed(st) && i < |tokens| && Scanned(raw, tokens) && Ordinary(st)
    requires Key(tokens[i].text, name, attached) && Undeclared(st.path, name)
    requires IsOption(tokens[i].text) || tokens[i].text == "--"
    ensures Sent(Consume(fold, st, raw, tokens, i), st, Rest(|st.path| - 1, |tokens| - i), i, true)
  {
    NotRaw(st, tokens[i].text);
    KeyOf(tokens[i].text, name, attached);
    OptionIs(tokens[i].text);
    FlagIsTheNearest(st.path, name, 0, Flag("", false, false));
    hide FindBinding, Classify, FlagName, Key, Undeclared, TakesRaw, Ordinary, GivenAll, IsFlag;
    AllGiven(st, |st.path| - 1, tokens[i..]);
  }

  /** A token that names no declared flag and is no option. */
  ghost predicate Argument(st: State, text: string) {
    && !IsOption(text) && text != "--"
    && exists name, attached :: Key(text, name, attached) && Undeclared(st.path, name)
  }

  lemma ArgumentIs(st: State, text: string)
    requires Argument(st, text)
    ensures FindBinding(st.path, FlagName(text)).None? && Classify(text) != EndOfOptions && !IsFlag(Classify(text))
  {
    var name, attached :| Key(text, name, attached) && Undeclared(st.path, name);
    KeyOf(text, name, attached);
    OptionIs(text);
    FlagIsTheNearest(st.path, name, 0, Flag("", false, false));
  }

  /** A plain argument is the current node's while a positional waits for it; one that is not variadic
      is then filled. */
  lemma ArgumentFillsItsPlace(fold: string -> string, st: State, raw: string, tokens: seq<Token>, i: nat,
                              p: Positional)
    requires Formed(st) && i < |tokens| && Scanned(raw, tokens) && Ordinary(st) && !st.variadic
    requires Argument(st, tokens[i].text) && Stands(Current(st).positionals, st.index, p)
    ensures var o := Consume(fold, st, raw, tokens, i);
            && o.Went? && o.next == i && !o.done && o.state.slots == st.slots + [ArgOf(|st.path| - 1)]
            && o.state.path == st.path && o.state.optionsEnded == st.optionsEnded
            && (if p.variadic then o.state.variadic && o.state.index == st.index
                else !o.state.variadic && o.state.index == st.index + 1)
  {
    NotRaw(st, tokens[i].text);
    ArgumentIs(st, tokens[i].text);
    hide FindBinding, Classify, FlagName, Argument, TakesRaw, Ordinary, GivenAll, IsFlag;
  }

  /** Where a variadic positional has begun, each further argument is one more of it. */
  lemma VariadicTakesTheRest(fold: string -> string, st: State, raw: string, tokens: seq<Token>, i: nat)
    requires Formed(st) && i < |tokens| && Scanned(raw, tokens) && Ordinary(st) && st.variadic
    requires Argument(st, tokens[i].text)
    ensures Sent(Consume(fold, st, raw, tokens, i), st, [ArgOf(|st.path| - 1)], i, false)
  {
    NotRaw(st, tokens[i].text);
    ArgumentIs(st, tokens[i].text);
    hide FindBinding, Classify, FlagName, Argument, TakesRaw, Ordinary, GivenAll, IsFlag;
  }

  /** The child has the name, or has it for an alias where no child has it for a name; of several, the first. */
  predicate Called(fold: string -> string, n: Node, text: string, c: Node) {
    || (exists k | 0 <= k < |n.children| ::
          n.children[k] == c && fold(c.name) == fold(text)
          && forall h | 0 <= h < k :: fold(n.children[h].name) != fold(text))
    || (exists k | 0 <= k < |n.children| ::
          n.children[k] == c && HasAlias(fold, c, text)
          && (forall h | 0 <= h < k :: !HasAlias(fold, n.children[h], text))
          && forall h | 0 <= h < |n.children| :: fold(n.children[h].name) != fold(text))
  }

  predicate HasAlias(fold: string -> string, n: Node, text: string) {
    exists a | a in n.aliases :: fold(a) == fold(text)
  }

  predicate Nameless(fold: string -> string, n: Node, text: string) {
    forall h | 0 <= h < |n.children| :: fold(n.children[h].name) != fold(text) && !HasAlias(fold, n.children[h], text)
  }

  lemma {:induction false} FirstByName(fold: string -> string, nodes: seq<Node>, text: string, k: nat)
    requires k <= |nodes| && forall h | 0 <= h < k :: fold(nodes[h].name) != fold(text)
    requires k < |nodes| ==> fold(nodes[k].name) == fold(text)
    ensures ByName(fold, nodes, text) == if k < |nodes| then Some(nodes[k]) else None
  {
    if k > 0 {
      FirstByName(fold, nodes[1..], text, k - 1);
    }
  }

  lemma {:induction false} FirstByAlias(fold: string -> string, nodes: seq<Node>, text: string, k: nat)
    requires k <= |nodes| && forall h | 0 <= h < k :: !HasAlias(fold, nodes[h], text)
    requires k < |nodes| ==> HasAlias(fold, nodes[k], text)
    ensures ByAlias(fold, nodes, text) == if k < |nodes| then Some(nodes[k]) else None
  {
    if k > 0 {
      FirstByAlias(fold, nodes[1..], text, k - 1);
    }
  }

  lemma ChildIsCalled(fold: string -> string, n: Node, text: string)
    ensures forall c | Called(fold, n, text, c) :: Find(fold, n, text) == Some(c)
    ensures Nameless(fold, n, text) ==> Find(fold, n, text).None?
  {
    hide HasAlias;
    var all := |n.children|;
    forall c | Called(fold, n, text, c)
      ensures Find(fold, n, text) == Some(c)
    {
      if k :| 0 <= k < all && n.children[k] == c && fold(c.name) == fold(text)
              && forall h | 0 <= h < k :: fold(n.children[h].name) != fold(text) {
        FirstByName(fold, n.children, text, k);
      } else {
        var k :| 0 <= k < all && n.children[k] == c && HasAlias(fold, c, text)
                 && forall h | 0 <= h < k :: !HasAlias(fold, n.children[h], text);
        FirstByName(fold, n.children, text, all);
        FirstByAlias(fold, n.children, text, k);
      }
    }
    if Nameless(fold, n, text) {
      FirstByName(fold, n.children, text, all);
      FirstByAlias(fold, n.children, text, all);
    }
  }

  /** Past the positionals an argument names a child to go down to, is refused where there are
      children it does not name, and is an argument where there are none. */
  lemma ArgumentNamesAChild(fold: string -> string, st: State, raw: string, tokens: seq<Token>, i: nat)
    requires Formed(st) && i < |tokens| && Scanned(raw, tokens) && Ordinary(st) && !st.variadic
    requires Argument(st, tokens[i].text) && Exhausted(Current(st).positionals, st.index)
    ensures var o, text := Consume(fold, st, raw, tokens, i), tokens[i].text;
            && (forall c | Called(fold, Current(st), text, c) ::
                  && o.Went? && o.next == i && !o.done && o.state.slots == st.slots + [Named]
                  && o.state.path == st.path + [c] && o.state.args == st.args + [[]] && o.state.index == 0
                  && !o.state.variadic && o.state.optionsEnded == st.optionsEnded)
            && (Nameless(fold, Current(st), text) ==>
                  if Current(st).children != [] then o == Unknown(text)
                  else Sent(o, st, [ArgOf(|st.path| - 1)], i, false))
  {
    NotRaw(st, tokens[i].text);
    ArgumentIs(st, tokens[i].text);
    ChildIsCalled(fold, Current(st), tokens[i].text);
    assert Resolve(Current(st).positionals, st.index).None?;
    hide FindBinding, Classify, FlagName, Argument, TakesRaw, Ordinary, GivenAll, IsFlag, Called, Nameless, Find;
  }

  /** What a passthrough takes it takes as the line has it, to its end: a full one any token
      that names no declared flag, a partial one no option either, unless it is two dashes. */
  lemma PassthroughTakesTheLine(fold: string -> string, st: State, raw: string, tokens: seq<Token>, i: nat,
                                p: Positional, name: string, attached: bool)
    requires Formed(st) && i < |tokens| && Scanned(raw, tokens)
    requires Stands(Current(st).positionals, st.index, p) && p.passthrough != NoPassthrough
    requires Key(tokens[i].text, name, attached) && Undeclared(st.path, name)
    requires p.passthrough == Partial ==> !IsOption(tokens[i].text)
    ensures var o, d := Consume(fold, st, raw, tokens, i), |st.path| - 1;
            && o.Went? && o.done && o.next == |tokens| && o.state.path == st.path
            && o.state.slots == st.slots + [RawOf(d)] + seq(|tokens| - i - 1, _ => RawRest)
            && o.state.args == st.args[d := st.args[d] + [raw[tokens[i].start..]]]
            && (o.state.optionsEnded <==> st.optionsEnded || (p.passthrough == Partial && tokens[i].text == "--"))
  {
    KeyOf(tokens[i].text, name, attached);
    OptionIs(tokens[i].text);
    FlagIsTheNearest(st.path, name, 0, Flag("", false, false));
    hide FindBinding, Classify, FlagName, Key, Undeclared, GivenAll, IsFlag;
    assert Resolve(Current(st).positionals, st.index) == Some(p);
    assert TakesRaw(st, tokens[i].text);
  }

  // ----- One token of completion -----

  /** Completion expects a flag's value exactly after a declared flag that takes one and is the
      last token; it skips a value that is there, and stops at a variadic flag. */
  lemma CompletionMeetsAFlag(fold: string -> string, c: Cursor, tokens: seq<string>, i: nat, name: string,
                             attached: bool, depth: nat, f: Flag)
    requires c.path != [] && i < |tokens| && Key(tokens[i], name, attached) && DeclaredAt(c.path, name, depth, f)
    ensures MoveOver(fold, c, tokens, i)
            == if f.boolean || attached then Move(c, false, false)
               else if i + 1 == |tokens| then Move(c.(expecting := Some(f)), false, true)
               else Move(c, !f.variadic, f.variadic)
  {
    KeyOf(tokens[i], name, attached);
    FlagIsTheNearest(c.path, name, depth, f);
    hide FindBinding, Classify, FlagName, Key, DeclaredAt, Attached, Resolve;
  }

  /** A token that names no flag fills a positional; it starts a passthrough, unless it is an option
      before a partial one, and a variadic positional ends the walk. */
  lemma CompletionFillsAPlace(fold: string -> string, c: Cursor, tokens: seq<string>, i: nat, p: Positional,
                              name: string, attached: bool)
    requires c.path != [] && i < |tokens| && Key(tokens[i], name, attached) && Undeclared(c.path, name)
    requires Stands(c.path[|c.path| - 1].positionals, c.index, p)
    ensures MoveOver(fold, c, tokens, i)
            == if p.passthrough == Partial && IsOption(tokens[i]) then Move(c.(invalid := true), false, true)
               else if p.passthrough != NoPassthrough then Move(c.(passthrough := true), false, true)
               else if p.variadic then Move(c, false, true)
               else Move(c.(index := c.index + 1), false, false)
  {
    KeyOf(tokens[i], name, attached);
    OptionIs(tokens[i]);
    FlagIsTheNearest(c.path, name, 0, Flag("", false, false));
    hide FindBinding, Classify, FlagName, Key, Undeclared, Attached, IsFlag;
    assert Resolve(c.path[|c.path| - 1].positionals, c.index) == Some(p);
  }

  /** Past the positionals it names a child, is invalid where there are others, and else counts on. */
  lemma CompletionNamesAChild(fold: string -> string, c: Cursor, tokens: seq<string>, i: nat, name: string,
                              attached: bool)
    requires c.path != [] && i < |tokens| && Key(tokens[i], name, attached) && Undeclared(c.path, name)
    requires Exhausted(c.path[|c.path| - 1].positionals, c.index)
    ensures var node, m := c.path[|c.path| - 1], MoveOver(fold, c, tokens, i);
            && (forall n | Called(fold, node, tokens[i], n) ::
                  m == Move(c.(path := c.path + [n], index := 0), false, false))
            && (Nameless(fold, node, tokens[i]) ==>
                  m == if node.children != [] then Move(c.(invalid := true), false, true)
                       else Move(c.(index := c.index + 1), false, false))
  {
    KeyOf(tokens[i], name, attached);
    FlagIsTheNearest(c.path, name, 0, Flag("", false, false));
    ChildIsCalled(fold, c.path[|c.path| - 1], tokens[i]);
    assert Resolve(c.path[|c.path| - 1].positionals, c.index).None?;
    hide FindBinding, Classify, FlagName, Key, Undeclared, Attached, IsFlag, Called, Nameless, Find;
  }
}
