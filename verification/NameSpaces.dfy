/**
 Opening and closing namespaces in generated C++ code. The generator keeps a pointer to the
 current namespace; two namespace objects may have the same components.
 */
module NameSpaces {
  import opened Wrappers

  /** A line of code: an opening brace, a closing brace with its comment, or a blank line. */
  datatype Token = Open(name: string) | Close(name: string) | Blank

  class Namespace {
    const components: seq<string>

    constructor (components: seq<string>)
      ensures this.components == components
    {
      this.components := components;
    }
  }

  function Components(ns: Namespace?): seq<string> {
    if ns == null then [] else ns.components
  }

  /** The length of the longest common prefix. */
  function CommonPrefix(a: seq<string>, b: seq<string>): (n: nat)
    ensures n <= |a| && n <= |b| && a[..n] == b[..n]
    ensures n < |a| && n < |b| ==> a[n] != b[n]
  {
    if a == [] || b == [] || a[0] != b[0] then 0
    else
      var n := 1 + CommonPrefix(a[1..], b[1..]);
      assert a[..n] == [a[0]] + a[1..][..n - 1] && b[..n] == [b[0]] + b[1..][..n - 1];
      n
  }

  lemma {:induction false} CommonPrefixUnique(a: seq<string>, b: seq<string>, n: nat)
    requires n <= |a| && n <= |b| && a[..n] == b[..n]
    requires n < |a| && n < |b| ==> a[n] != b[n]
    ensures CommonPrefix(a, b) == n
    decreases n
  {
    if n > 0 {
      assert a[..n][0] == b[..n][0];
      assert a[1..][..n - 1] == a[..n][1..] && b[1..][..n - 1] == b[..n][1..];
      CommonPrefixUnique(a[1..], b[1..], n - 1);
    }
  }

  // ---- What the code does -----------------------------------------------------------------

  function ReplayOne(t: Token, stack: seq<string>): Option<seq<string>> {
    match t
    case Blank => Some(stack)
    case Open(name) => Some(stack + [name])
    case Close(name) => if stack != [] && stack[|stack| - 1] == name then Some(stack[..|stack| - 1]) else None
  }

  /** The open namespaces after `tokens`; none if a close does not match the innermost open. */
  function Replay(tokens: seq<Token>, stack: seq<string>): Option<seq<string>> {
    if tokens == [] then Some(stack)
    else
      match Replay(tokens[..|tokens| - 1], stack)
      case None => None
      case Some(s) => ReplayOne(tokens[|tokens| - 1], s)
  }

  lemma {:induction false} ReplayConcat(a: seq<Token>, b: seq<Token>, stack: seq<string>)
    ensures Replay(a + b, stack) == (match Replay(a, stack) case None => None case Some(s) => Replay(b, s))
    decreases |b|
  {
    if b == [] {
      assert a + b == a;
    } else {
      assert (a + b)[..|a + b| - 1] == a + b[..|b| - 1];
      ReplayConcat(a, b[..|b| - 1], stack);
    }
  }

  /** The braces among the tokens. */
  function Braces(tokens: seq<Token>): nat {
    if tokens == [] then 0 else Braces(tokens[..|tokens| - 1]) + (if tokens[|tokens| - 1].Blank? then 0 else 1)
  }

  lemma {:induction false} BracesConcat(a: seq<Token>, b: seq<Token>)
    ensures Braces(a + b) == Braces(a) + Braces(b)
    decreases |b|
  {
    if b == [] {
      assert a + b == a;
    } else {
      assert (a + b)[..|a + b| - 1] == a + b[..|b| - 1];
      BracesConcat(a, b[..|b| - 1]);
    }
  }

  // ---- The fewest braces between two namespaces ---------------------------------------------

  /** How many braces it takes at least to get from one namespace to another. */
  function Distance(a: seq<string>, b: seq<string>): nat {
    |a| + |b| - 2 * CommonPrefix(a, b)
  }

  /** One brace changes the distance to anywhere by at most one. */
  lemma PushMoves(a: seq<string>, x: string, c: seq<string>)
    ensures Distance(a + [x], c) - 1 <= Distance(a, c) <= Distance(a + [x], c) + 1
  {
    var n := CommonPrefix(a, c);
    var b := a + [x];
    assert b[..n] == a[..n];
    if n < |a| {
      assert n < |c| ==> b[n] != c[n];
      CommonPrefixUnique(b, c, n);
    } else if n < |c| && c[n] == x {
      assert b[..n + 1] == c[..n + 1];
      CommonPrefixUnique(b, c, n + 1);
    } else {
      CommonPrefixUnique(b, c, n);
    }
  }

  /** No code with fewer braces gets from `a` to `b`. */
  lemma {:induction false} FewestBraces(tokens: seq<Token>, a: seq<string>, b: seq<string>)
    requires Replay(tokens, a) == Some(b)
    ensures Braces(tokens) >= Distance(a, b)
    decreases |tokens|
  {
    if tokens == [] {
      CommonPrefixUnique(a, a, |a|);
    } else {
      var init, last := tokens[..|tokens| - 1], tokens[|tokens| - 1];
      var s := Replay(init, a).value;
      FewestBraces(init, a, s);
      match last
      case Blank =>
      case Open(name) =>
        PushMoves(s, name, a);
        Symmetric(s, a);
        Symmetric(b, a);
      case Close(name) =>
        assert s == b + [name];
        PushMoves(b, name, a);
        Symmetric(s, a);
        Symmetric(b, a);
    }
  }

  lemma Symmetric(a: seq<string>, b: seq<string>)
    ensures Distance(a, b) == Distance(b, a)
  {
    CommonPrefixUnique(b, a, CommonPrefix(a, b));
  }

  // ---- SetNameSpace ---------------------------------------------------------------------------

  /** Closes down to the first `n` components, innermost first. */
  function Closes(a: seq<string>, n: nat): seq<Token>
    requires n <= |a|
    decreases |a|
  {
    if |a| == n then [] else [Close(a[|a| - 1])] + Closes(a[..|a| - 1], n)
  }

  function Opens(b: seq<string>, n: nat): seq<Token>
    requires n <= |b|
    decreases |b|
  {
    if |b| == n then [] else Opens(b[..|b| - 1], n) + [Open(b[|b| - 1])]
  }

  /** What is written to get from one namespace to another. */
  function Change(a: seq<string>, b: seq<string>): seq<Token> {
    var n := CommonPrefix(a, b);
    Closes(a, n) + (if |a| != n then [Blank] else []) + Opens(b, n) + (if |b| != n then [Blank] else [])
  }

  lemma {:induction false} ClosesReplay(a: seq<string>, n: nat)
    requires n <= |a|
    ensures Replay(Closes(a, n), a) == Some(a[..n]) && Braces(Closes(a, n)) == |a| - n
    decreases |a|
  {
    if |a| == n {
      assert a[..n] == a;
    } else {
      var rest := a[..|a| - 1];
      ClosesReplay(rest, n);
      ReplayConcat([Close(a[|a| - 1])], Closes(rest, n), a);
      BracesConcat([Close(a[|a| - 1])], Closes(rest, n));
      assert [Close(a[|a| - 1])][..0] == [] && rest[..n] == a[..n];
      assert Replay([Close(a[|a| - 1])], a) == Some(rest);
      assert Braces([Close(a[|a| - 1])]) == 1;
    }
  }

  lemma {:induction false} OpensReplay(b: seq<string>, n: nat)
    requires n <= |b|
    ensures Replay(Opens(b, n), b[..n]) == Some(b) && Braces(Opens(b, n)) == |b| - n
    decreases |b|
  {
    if |b| == n {
      assert b[..n] == b;
    } else {
      var rest := b[..|b| - 1];
      OpensReplay(rest, n);
      assert rest[..n] == b[..n] && rest + [b[|b| - 1]] == b;
      assert Opens(b, n)[..|Opens(b, n)| - 1] == Opens(rest, n);
    }
  }

  lemma BlankReplays(tokens: seq<Token>, yes: bool, stack: seq<string>)
    ensures Replay(tokens + (if yes then [Blank] else []), stack) == Replay(tokens, stack)
    ensures Braces(tokens + (if yes then [Blank] else [])) == Braces(tokens)
  {
    if yes {
      assert (tokens + [Blank])[..|tokens|] == tokens;
    } else {
      assert tokens + [] == tokens;
    }
  }

  /** A change takes the code from `a` to `b`, with exactly as many braces as the distance. */
  lemma ChangeReplays(a: seq<string>, b: seq<string>)
    ensures Replay(Change(a, b), a) == Some(b)
    ensures Braces(Change(a, b)) == Distance(a, b)
  {
    var n := CommonPrefix(a, b);
    var first := Closes(a, n) + (if |a| != n then [Blank] else []);
    ClosesReplay(a, n);
    BlankReplays(Closes(a, n), |a| != n, a);
    OpensReplay(b, n);
    ReplayConcat(first, Opens(b, n), a);
    BracesConcat(first, Opens(b, n));
    BlankReplays(first + Opens(b, n), |b| != n, a);
  }

  lemma SameChange(a: seq<string>)
    ensures Change(a, a) == []
  {
    CommonPrefixUnique(a, a, |a|);
  }

  class CppGenerator {
    var curNameSpace: Namespace?
    var code: seq<Token>

    constructor ()
      ensures Valid() && curNameSpace == null && code == []
    {
      curNameSpace := null;
      code := [];
    }

    /** The code so far is well-bracketed, and leaves exactly the current namespace open. */
    ghost predicate Valid()
      reads this
    {
      Replay(code, []) == Some(Components(curNameSpace))
    }

    /** Closes and opens only what is necessary, and no other code could do with fewer braces. */
    method SetNameSpace(ns: Namespace?)
      requires Valid()
      modifies this
      ensures Valid() && curNameSpace == ns
      ensures code == old(code) + Change(old(Components(curNameSpace)), Components(ns))
    {
      hide Replay, Closes, Opens, Braces, CommonPrefix;
      ghost var before, a, b := code, Components(curNameSpace), Components(ns);
      ChangeReplays(a, b);
      ReplayConcat(code, Change(a, b), []);
      if curNameSpace == ns {
        SameChange(a);
        return;
      }
      var oldSize := if curNameSpace == null then 0 else |curNameSpace.components|;
      var newSize := if ns == null then 0 else |ns.components|;
      var common := 0;
      while common < oldSize && common < newSize && ns.components[common] == curNameSpace.components[common]
        invariant common <= oldSize && common <= newSize && a[..common] == b[..common]
      {
        common := common + 1;
      }
      CommonPrefixUnique(a, b, common);
      CloseTo(common);
      OpenFrom(ns, common);
      curNameSpace := ns;
      Associate(before, Closes(a, common), if oldSize != common then [Blank] else [],
                Opens(b, common), if newSize != common then [Blank] else []);
    }

    lemma Associate(before: seq<Token>, p: seq<Token>, q: seq<Token>, r: seq<Token>, t: seq<Token>)
      ensures before + p + q + r + t == before + (p + q + r + t)
    {
    }

    /** Closes the current namespace in reverse order down to the common prefix. */
    method CloseTo(common: nat)
      requires common <= |Components(curNameSpace)|
      modifies this`code
      ensures code == old(code) + Closes(Components(curNameSpace), common)
        + (if |Components(curNameSpace)| != common then [Blank] else [])
    {
      ghost var a := Components(curNameSpace);
      var oldSize := if curNameSpace == null then 0 else |curNameSpace.components|;
      var j := oldSize;
      assert a[..j] == a;
      while j > common
        invariant common <= j <= oldSize
        invariant code + Closes(a[..j], common) == old(code) + Closes(a, common)
      {
        assert a[..j][..j - 1] == a[..j - 1];
        ghost var rest := Closes(a[..j - 1], common);
        assert code + ([Close(a[j - 1])] + rest) == code + [Close(a[j - 1])] + rest;
        code := code + [Close(curNameSpace.components[j - 1])];
        j := j - 1;
      }
      assert code + [] == code;
      if oldSize != common {
        code := code + [Blank];
      }
    }

    /** Opens what is behind the common prefix. */
    method OpenFrom(ns: Namespace?, common: nat)
      requires common <= |Components(ns)|
      modifies this`code
      ensures code == old(code) + Opens(Components(ns), common) + (if |Components(ns)| != common then [Blank] else [])
    {
      ghost var b := Components(ns);
      var newSize := if ns == null then 0 else |ns.components|;
      var j := common;
      assert code + [] == code;
      while j != newSize
        invariant common <= j <= newSize && code == old(code) + Opens(b[..j], common)
      {
        assert b[..j + 1][..j] == b[..j];
        ghost var done := Opens(b[..j], common);
        assert old(code) + (done + [Open(b[j])]) == old(code) + done + [Open(b[j])];
        code := code + [Open(ns.components[j])];
        j := j + 1;
      }
      assert b[..j] == b && code + [] == code;
      if newSize != common {
        code := code + [Blank];
      }
    }
  }

  // ---- Any sequence of calls --------------------------------------------------------------------

  /** The code that a sequence of namespace changes writes. */
  function CodeOf(spaces: seq<seq<string>>): seq<Token> {
    if spaces == [] then []
    else CodeOf(spaces[..|spaces| - 1]) + Change(LastOf(spaces[..|spaces| - 1]), spaces[|spaces| - 1])
  }

  function LastOf(spaces: seq<seq<string>>): seq<string> {
    if spaces == [] then [] else spaces[|spaces| - 1]
  }

  /** After any sequence the code is well-bracketed, and ends in the last namespace: empty after a null. */
  lemma {:induction false} RunReplays(spaces: seq<seq<string>>)
    ensures Replay(CodeOf(spaces), []) == Some(LastOf(spaces))
    decreases |spaces|
  {
    if spaces != [] {
      var init := spaces[..|spaces| - 1];
      RunReplays(init);
      ChangeReplays(LastOf(init), LastOf(spaces));
      ReplayConcat(CodeOf(init), Change(LastOf(init), LastOf(spaces)), []);
    }
  }

  method SetNameSpaces(gen: CppGenerator, spaces: seq<Namespace?>)
    requires gen.Valid() && gen.code == [] && gen.curNameSpace == null
    modifies gen
    ensures gen.Valid() && gen.code == CodeOf(seq(|spaces|, i requires 0 <= i < |spaces| => Components(spaces[i])))
  {
    hide Change, Replay;
    ghost var all := seq(|spaces|, i requires 0 <= i < |spaces| => Components(spaces[i]));
    for i := 0 to |spaces|
      invariant gen.Valid() && gen.code == CodeOf(all[..i])
      invariant Components(gen.curNameSpace) == LastOf(all[..i])
    {
      assert all[..i + 1][..i] == all[..i];
      gen.SetNameSpace(spaces[i]);
    }
    assert all[..|spaces|] == all;
  }
}
