/** `PathResolver` (apply.py:16-46): a registry of named resolvers and the
    `%Name%` substitution that `resolve` performs on a path pattern. */
module Resolver {
  import opened Faults
  import opened OsPath

  /** What `add` stores under a name: a string argument becomes a pattern that
      is resolved again on every lookup; any other resolver is a callable
      whose result is used as it is, modelled by the value it returns. */
  datatype Entry = Pattern(pattern: string) | Constant(value: string)

  type Registry = map<string, Entry>

  /** `s.find(c)`. */
  function Find(s: string, c: char): (i: int)
    ensures -1 <= i < |s|
    ensures i == -1 <==> c !in s
    ensures 0 <= i ==> s[i] == c && c !in s[..i]
  {
    if s == [] then -1
    else if s[0] == c then 0
    else
      var k := Find(s[1..], c);
      if k == -1 then -1 else k + 1
  }

  /** `lit` in front of a successful result; a fault passes through. */
  function Prefixed(lit: string, r: Result<string>): (q: Result<string>)
    ensures q.Ok? <==> r.Ok?
    ensures r.Ok? ==> q.value == lit + r.value
    ensures r.Err? ==> q == r
  {
    match r
    case Ok(v) => Ok(lit + v)
    case Err(f) => Err(f)
  }

  lemma PrefixedTwice(a: string, b: string, r: Result<string>)
    ensures Prefixed(a, Prefixed(b, r)) == Prefixed(a + b, r)
  {
    if r.Ok? {
      assert a + (b + r.value) == (a + b) + r.value;
    }
  }

  lemma PrefixedEmpty(r: Result<string>)
    ensures Prefixed([], r) == r
  {
    if r.Ok? {
      assert [] + r.value == r.value;
    }
  }

  lemma RemoveFromDifference(keys: set<string>, visiting: set<string>, name: string)
    requires name in keys && name !in visiting
    ensures |keys - (visiting + {name})| < |keys - visiting|
  {
    assert keys - (visiting + {name}) == (keys - visiting) - {name};
  }

  /** The scanning loop of `resolve` (apply.py:35-45) over the expanded
      pattern `s`, with `orig` the pattern as passed in. `visiting` holds the
      entries whose own resolution is in progress. */
  function Scan(reg: Registry, home: string, visiting: set<string>, orig: string, s: string): (r: Result<string>)
    ensures r.Err? ==> r.fault.Malformed? || r.fault.UnknownToken? || r.fault.Cyclic?
    decreases |reg.Keys - visiting|, |s| + 1
  {
    if s == [] then Ok([])
    else if s[0] != '%' then Prefixed([s[0]], Scan(reg, home, visiting, orig, s[1..]))
    else
      var t := s[1..];
      var p := Find(t, '%');
      if p == -1 then Err(Malformed(orig))
      else
        match Lookup(reg, home, visiting, t[..p])
        case Err(f) => Err(f)
        case Ok(v) => Prefixed(v, Scan(reg, home, visiting, orig, t[p + 1..]))
  }

  /** `__resolve(name)` (apply.py:22-23) with the entry that `add` stored
      (apply.py:26-29): a pattern entry is resolved by `resolve`, including
      its own `~` expansion. */
  function Lookup(reg: Registry, home: string, visiting: set<string>, name: string): (r: Result<string>)
    ensures r.Err? ==> r.fault.Malformed? || r.fault.UnknownToken? || r.fault.Cyclic?
    decreases |reg.Keys - visiting|, 0
  {
    if name !in reg then Err(UnknownToken(name))
    else if name in visiting then Err(Cyclic(name))
    else
      match reg[name]
      case Constant(v) => Ok(v)
      case Pattern(p) =>
        RemoveFromDifference(reg.Keys, visiting, name);
        Scan(reg, home, visiting + {name}, p, ExpandUser(home, p))
  }

  /** `resolver.resolve(pat)` called from outside the registry. */
  function Resolved(reg: Registry, home: string, pat: string): Result<string> {
    Scan(reg, home, {}, pat, ExpandUser(home, pat))
  }

  // ---------------------------------------------------------------------
  // The pattern language on its own: a pattern is literals and `%name%`
  // tokens, and resolution is substitution of each token.

  /** One piece of a pattern: a literal character or a `%name%` token. */
  datatype Piece = Lit(c: char) | Token(name: string)

  /** The pattern text that `ps` spells. */
  function Render(ps: seq<Piece>): string {
    if ps == [] then []
    else
      var head := match ps[0] case Lit(c) => [c] case Token(n) => "%" + n + "%";
      head + Render(ps[1..])
  }

  /** No piece contains a stray delimiter, so every piece reads back as itself. */
  predicate WellFormed(p: Piece) {
    match p
    case Lit(c) => c != '%'
    case Token(n) => '%' !in n
  }

  predicate WellNamed(ps: seq<Piece>) {
    forall i :: 0 <= i < |ps| ==> WellFormed(ps[i])
  }

  /** The pieces of `s`, or `None` when some `%` is left unclosed. */
  function Template(s: string): Option<seq<Piece>>
    decreases |s|
  {
    if s == [] then Some([])
    else if s[0] != '%' then
      match Template(s[1..])
      case None => None
      case Some(ps) => Some([Lit(s[0])] + ps)
    else
      var t := s[1..];
      var p := Find(t, '%');
      if p == -1 then None
      else
        match Template(t[p + 1..])
        case None => None
        case Some(ps) => Some([Token(t[..p])] + ps)
  }

  /** Literals copied, each token replaced by its entry, left to right; the
      first fault wins. */
  function Substitute(reg: Registry, home: string, visiting: set<string>, ps: seq<Piece>): Result<string> {
    if ps == [] then Ok([])
    else
      match ps[0]
      case Lit(c) => Prefixed([c], Substitute(reg, home, visiting, ps[1..]))
      case Token(n) =>
        match Lookup(reg, home, visiting, n)
        case Err(f) => Err(f)
        case Ok(v) => Prefixed(v, Substitute(reg, home, visiting, ps[1..]))
  }

  /** Number of occurrences of `c` in `s`. */
  function Count(s: string, c: char): nat {
    if s == [] then 0 else (if s[0] == c then 1 else 0) + Count(s[1..], c)
  }

  lemma {:induction false} CountAppend(a: string, b: string, c: char)
    ensures Count(a + b, c) == Count(a, c) + Count(b, c)
  {
    if a == [] {
      assert a + b == b;
    } else {
      assert (a + b)[1..] == a[1..] + b;
      CountAppend(a[1..], b, c);
    }
  }

  lemma {:induction false} CountAbsent(s: string, c: char)
    requires c !in s
    ensures Count(s, c) == 0
  {
    if s != [] {
      CountAbsent(s[1..], c);
    }
  }

  lemma FindFirst(s: string, c: char, k: nat)
    requires k < |s| && s[k] == c && c !in s[..k]
    ensures Find(s, c) == k
  {
  }

  lemma FindToken(n: string, rest: string)
    requires '%' !in n
    ensures Find(n + "%" + rest, '%') == |n|
    ensures (n + "%" + rest)[..|n|] == n && (n + "%" + rest)[|n| + 1..] == rest
  {
    var t := n + "%" + rest;
    assert t[..|n|] == n;
    FindFirst(t, '%', |n|);
  }

  lemma RenderCons(p: Piece, ps: seq<Piece>)
    ensures Render([p] + ps) == (match p case Lit(c) => [c] case Token(n) => "%" + n + "%") + Render(ps)
  {
    assert ([p] + ps)[1..] == ps;
  }

  lemma WellNamedCons(p: Piece, ps: seq<Piece>)
    requires WellFormed(p) && WellNamed(ps)
    ensures WellNamed([p] + ps)
  {
    assert forall i :: 1 <= i < |[p] + ps| ==> ([p] + ps)[i] == ps[i - 1];
  }

  /** A `%` that has a closing `%` splits the text into the token name and what follows. */
  lemma TokenParts(s: string) returns (name: string, rest: string)
    requires s != [] && s[0] == '%' && Find(s[1..], '%') != -1
    ensures name == s[1..][..Find(s[1..], '%')] && rest == s[1..][Find(s[1..], '%') + 1..]
    ensures s == "%" + name + "%" + rest && '%' !in name
  {
    var t := s[1..];
    var p := Find(t, '%');
    name, rest := t[..p], t[p + 1..];
    assert t == name + [t[p]] + rest;
  }

  /** Splitting a pattern into pieces and writing them back gives the pattern. */
  lemma {:induction false} TemplateRender(s: string)
    requires Template(s).Some?
    ensures Render(Template(s).value) == s
    ensures WellNamed(Template(s).value)
    decreases |s|
  {
    if s == [] {
    } else if s[0] != '%' {
      var ps := Template(s[1..]).value;
      TemplateRender(s[1..]);
      assert Template(s) == Some([Lit(s[0])] + ps);
      RenderCons(Lit(s[0]), ps);
      WellNamedCons(Lit(s[0]), ps);
      assert s == [s[0]] + s[1..];
    } else {
      var name, rest := TokenParts(s);
      var ps := Template(rest).value;
      TemplateRender(rest);
      assert Template(s) == Some([Token(name)] + ps);
      RenderCons(Token(name), ps);
      WellNamedCons(Token(name), ps);
    }
  }

  /** Writing well-formed pieces out and splitting the text gives the pieces. */
  lemma {:induction false} RenderTemplate(ps: seq<Piece>)
    requires WellNamed(ps)
    ensures Template(Render(ps)) == Some(ps)
  {
    if ps != [] {
      assert WellNamed(ps[1..]) by {
        forall i | 0 <= i < |ps[1..]| ensures WellFormed(ps[1..][i]) {
          assert ps[1..][i] == ps[i + 1];
        }
      }
      RenderTemplate(ps[1..]);
      var rest := Render(ps[1..]);
      assert WellFormed(ps[0]);
      assert ps == [ps[0]] + ps[1..];
      match ps[0]
      case Lit(c) =>
        assert Render(ps) == [c] + rest;
        assert ([c] + rest)[1..] == rest;
      case Token(n) =>
        assert Render(ps) == "%" + (n + "%" + rest);
        assert ("%" + (n + "%" + rest))[1..] == n + "%" + rest;
        FindToken(n, rest);
    }
  }

  /** On a pattern without unclosed `%`, scanning is substitution of its pieces. */
  lemma {:induction false} ScanIsSubstitution(reg: Registry, home: string, visiting: set<string>, orig: string, s: string)
    requires Template(s).Some?
    ensures Scan(reg, home, visiting, orig, s) == Substitute(reg, home, visiting, Template(s).value)
    decreases |s|
  {
    if s != [] {
      if s[0] != '%' {
        ScanIsSubstitution(reg, home, visiting, orig, s[1..]);
        var qs := [Lit(s[0])] + Template(s[1..]).value;
        assert qs[1..] == Template(s[1..]).value;
      } else {
        var t := s[1..];
        var p := Find(t, '%');
        ScanIsSubstitution(reg, home, visiting, orig, t[p + 1..]);
        var qs := [Token(t[..p])] + Template(t[p + 1..]).value;
        assert qs[1..] == Template(t[p + 1..]).value;
      }
    }
  }

  /** A pattern with an unclosed `%` never resolves: the scan meets either
      that `%` or an earlier fault. */
  lemma {:induction false} UnclosedNeverResolves(reg: Registry, home: string, visiting: set<string>, orig: string, s: string)
    requires Template(s).None?
    ensures Scan(reg, home, visiting, orig, s).Err?
    decreases |s|
  {
    if s[0] != '%' {
      UnclosedNeverResolves(reg, home, visiting, orig, s[1..]);
    } else if Find(s[1..], '%') != -1 {
      var name, rest := TokenParts(s);
      assert Template(rest).None?;
      UnclosedNeverResolves(reg, home, visiting, orig, rest);
      assert Scan(reg, home, visiting, orig, s) ==
        match Lookup(reg, home, visiting, name)
        case Err(f) => Err(f)
        case Ok(v) => Prefixed(v, Scan(reg, home, visiting, orig, rest));
    }
  }

  lemma CountToken(name: string, rest: string)
    requires '%' !in name
    ensures Count("%" + name + "%" + rest, '%') == Count(rest, '%') + 2
  {
    CountAppend("%" + name + "%", rest, '%');
    CountAppend("%" + name, "%", '%');
    CountAppend("%", name, '%');
    CountAbsent(name, '%');
  }

  /** A `%` is left unclosed exactly when the pattern holds an odd number of them. */
  lemma {:induction false} UnclosedIffOdd(s: string)
    ensures Template(s).None? <==> Count(s, '%') % 2 == 1
    decreases |s|
  {
    if s != [] {
      if s[0] != '%' {
        UnclosedIffOdd(s[1..]);
        assert Count(s, '%') == Count(s[1..], '%');
        assert Template(s).None? <==> Template(s[1..]).None?;
      } else if Find(s[1..], '%') == -1 {
        CountAbsent(s[1..], '%');
        assert Count(s, '%') == 1 + Count(s[1..], '%');
      } else {
        var name, rest := TokenParts(s);
        UnclosedIffOdd(rest);
        CountToken(name, rest);
        assert Template(s).None? <==> Template(rest).None?;
      }
    }
  }

  /** Literal characters are copied in order. */
  lemma {:induction false} LiteralsCopied(reg: Registry, home: string, visiting: set<string>, orig: string, lit: string, s: string)
    requires '%' !in lit
    ensures Scan(reg, home, visiting, orig, lit + s) == Prefixed(lit, Scan(reg, home, visiting, orig, s))
    decreases |lit|
  {
    if lit == [] {
      assert lit + s == s;
      PrefixedEmpty(Scan(reg, home, visiting, orig, s));
    } else {
      assert (lit + s)[1..] == lit[1..] + s;
      LiteralsCopied(reg, home, visiting, orig, lit[1..], s);
      PrefixedTwice([lit[0]], lit[1..], Scan(reg, home, visiting, orig, s));
      assert [lit[0]] + lit[1..] == lit;
    }
  }

  /** A `%name%` block is replaced by the entry's result, and scanning goes on after it. */
  lemma TokenReplaced(reg: Registry, home: string, visiting: set<string>, orig: string, name: string, rest: string)
    requires '%' !in name
    ensures var looked := Lookup(reg, home, visiting, name);
      Scan(reg, home, visiting, orig, "%" + name + "%" + rest) ==
      if looked.Err? then looked else Prefixed(looked.value, Scan(reg, home, visiting, orig, rest))
  {
    var s := "%" + name + "%" + rest;
    assert s[1..] == name + "%" + rest;
    FindToken(name, rest);
  }

  /** A pattern with no `%` comes back as its home expansion. */
  lemma NoTokenUnchanged(reg: Registry, home: string, pat: string)
    requires '%' !in pat && '%' !in home
    ensures Resolved(reg, home, pat) == Ok(ExpandUser(home, pat))
  {
    var s := ExpandUser(home, pat);
    ExpandUserChars(home, pat, '%');
    LiteralsCopied(reg, home, {}, pat, s, []);
    assert s + [] == s;
  }

  /** A `%` with no later `%` is a fault naming the pattern as passed in. */
  lemma UnclosedFault(reg: Registry, home: string, visiting: set<string>, orig: string, lit: string, tail: string)
    requires '%' !in lit && '%' !in tail
    ensures Scan(reg, home, visiting, orig, lit + "%" + tail) == Err(Malformed(orig))
  {
    LiteralsCopied(reg, home, visiting, orig, lit, "%" + tail);
    assert lit + "%" + tail == lit + ("%" + tail);
    assert ("%" + tail)[1..] == tail;
  }

  /** A token missing from the registry is a fault: there is no default value. */
  lemma UnknownFault(reg: Registry, home: string, visiting: set<string>, orig: string, lit: string, name: string, rest: string)
    requires '%' !in lit && '%' !in name && name !in reg
    ensures Scan(reg, home, visiting, orig, lit + "%" + name + "%" + rest) == Err(UnknownToken(name))
  {
    LiteralsCopied(reg, home, visiting, orig, lit, "%" + name + "%" + rest);
    assert lit + "%" + name + "%" + rest == lit + ("%" + name + "%" + rest);
    TokenReplaced(reg, home, visiting, orig, name, rest);
  }

  /** After `add(name, p)` with a string `p`, `%name%` resolves as `p` does,
      `~` expansion included, with `name` itself now in progress. */
  lemma AddedPatternResolves(reg: Registry, home: string, name: string, p: string)
    requires '%' !in name
    ensures Resolved(reg[name := Pattern(p)], home, "%" + name + "%") ==
            Scan(reg[name := Pattern(p)], home, {name}, p, ExpandUser(home, p))
  {
    var reg' := reg[name := Pattern(p)];
    var pat := "%" + name + "%";
    assert pat == "%" + name + "%" + [];
    TokenReplaced(reg', home, {}, pat, name, []);
    assert {} + {name} == {name};
    var inner := Lookup(reg', home, {}, name);
    if inner.Ok? {
      assert inner.value + [] == inner.value;
    }
  }

  /** After `add(name, f)` with a callable `f`, `%name%` resolves to what `f` returns. */
  lemma AddedConstantResolves(reg: Registry, home: string, name: string, v: string)
    requires '%' !in name
    ensures Resolved(reg[name := Constant(v)], home, "%" + name + "%") == Ok(v)
  {
    var pat := "%" + name + "%";
    assert pat == "%" + name + "%" + [];
    TokenReplaced(reg[name := Constant(v)], home, {}, pat, name, []);
    assert v + [] == v;
  }

  class PathResolver {
    var resolvers: Registry

    constructor ()
      ensures resolvers == map[]
    {
      resolvers := map[];
    }

    /** `add(name, resolver)`: a later entry under the same name replaces the
        earlier one. */
    method Add(name: string, entry: Entry)
      modifies this
      ensures resolvers == old(resolvers)[name := entry]
    {
      resolvers := resolvers[name := entry];
    }

    /** `resolve(pat)`. */
    method Resolve(home: string, pat: string) returns (r: Result<string>)
      ensures r == Resolved(resolvers, home, pat)
    {
      r := ResolveWithin(home, pat, {});
    }

    /** `resolve(pat)` while the entries in `visiting` are being resolved. */
    method ResolveWithin(home: string, pat: string, visiting: set<string>) returns (r: Result<string>)
      ensures r == Scan(resolvers, home, visiting, pat, ExpandUser(home, pat))
      decreases |resolvers.Keys - visiting|, 1
    {
      ghost var whole := Scan(resolvers, home, visiting, pat, ExpandUser(home, pat));
      var s := ExpandUser(home, pat);
      var result := "";
      PrefixedEmpty(whole);
      while s != []
        invariant whole == Prefixed(result, Scan(resolvers, home, visiting, pat, s))
      {
        if s[0] != '%' {
          PrefixedTwice(result, [s[0]], Scan(resolvers, home, visiting, pat, s[1..]));
          result := result + [s[0]];
          s := s[1..];
        } else {
          ghost var before := s;
          s := s[1..];
          var p := Find(s, '%');
          if p == -1 {
            assert Scan(resolvers, home, visiting, pat, before) == Err(Malformed(pat));
            return Err(Malformed(pat));
          }
          var v := Call(home, s[..p], visiting);
          if v.Err? {
            assert Scan(resolvers, home, visiting, pat, before) == v;
            return Err(v.fault);
          }
          PrefixedTwice(result, v.value, Scan(resolvers, home, visiting, pat, s[p + 1..]));
          result := result + v.value;
          s := s[p + 1..];
        }
      }
      assert result + [] == result;
      r := Ok(result);
    }

    /** `__resolve(name)`: look the entry up and call it. */
    method Call(home: string, name: string, visiting: set<string>) returns (r: Result<string>)
      ensures r == Lookup(resolvers, home, visiting, name)
      decreases |resolvers.Keys - visiting|, 0
    {
      if name !in resolvers {
        return Err(UnknownToken(name));
      }
      if name in visiting {
        return Err(Cyclic(name));
      }
      match resolvers[name]
      case Constant(v) =>
        r := Ok(v);
      case Pattern(p) =>
        RemoveFromDifference(resolvers.Keys, visiting, name);
        r := ResolveWithin(home, p, visiting + {name});
    }
  }
}
