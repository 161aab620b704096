/** The rule language of `apply` (apply.py:81-110): platform-scoped rules
    with priorities, the selector `r`, and the dispatch `c` that hands each
    binding's verdict to the `config` callback. */
module Rules {
  import opened Faults
  import Resolver

  /** The host the run targets: the flags WINDOWS, MACOS, LINUX of
      apply.py:11-13, of which at most one is set (`--sys` sets exactly one,
      an undetected host none). */
  datatype Platform = Windows | MacOS | Linux | Undetected

  /** The left operand of a rule: `win`, `mac`, `lin` or `any`. */
  datatype Scope = Win | Mac | Lin | Any

  /** What a rule or a binding yields: a path or pattern, or an `Ignore`
      marker with its reason (`IGNORE` and `Ignore()` have reason ""). */
  datatype Target = Path(path: string) | Ignore(reason: string)

  /** `scope >> target`. */
  datatype Rule = Rule(scope: Scope, target: Target)

  /** The `ConfigPath(path, prio)` namedtuple a matching rule produces. */
  datatype ConfigPath = ConfigPath(path: Target, prio: int)

  /** The right operand of `_(name) >>`: a single target, passed on as it is,
      or a tuple of rules to select from. */
  datatype Choice = Direct(target: Target) | Rules(rules: seq<Rule>)

  datatype Binding = Binding(name: string, choice: Choice)

  /** The left value of each scope's `RArrow`. */
  function Priority(s: Scope): int {
    match s
    case Win => 100
    case Mac => 100
    case Lin => 100
    case Any => 10
  }

  /** The thunk that `scope >> target` builds (apply.py:107-110): `None`
      unless the scope's flag is set, `ConfigPath(target, prio)` otherwise,
      with the scope's priority. */
  function Thunk(rule: Rule, p: Platform): Option<ConfigPath> {
    match rule.scope
    case Win => if p != Windows then None else Some(ConfigPath(rule.target, Priority(rule.scope)))
    case Mac => if p != MacOS then None else Some(ConfigPath(rule.target, Priority(rule.scope)))
    case Lin => if p != Linux then None else Some(ConfigPath(rule.target, Priority(rule.scope)))
    case Any => Some(ConfigPath(rule.target, Priority(rule.scope)))
  }

  /** The scope that names platform `p`, if any. */
  function ScopeOf(p: Platform): Option<Scope> {
    match p
    case Windows => Some(Win)
    case MacOS => Some(Mac)
    case Linux => Some(Lin)
    case Undetected => None
  }

  predicate Matches(rule: Rule, p: Platform) {
    Thunk(rule, p).Some?
  }

  /** An OS scope matches only on its own platform and then carries priority
      100; `any` matches everywhere with priority 10; on an undetected host
      only `any` matches. */
  lemma ScopeMatching(rule: Rule, p: Platform)
    ensures Matches(rule, p) <==> rule.scope == Any || Some(rule.scope) == ScopeOf(p)
    ensures Matches(rule, p) ==> Thunk(rule, p).value == ConfigPath(rule.target, Priority(rule.scope))
    ensures Priority(rule.scope) == (if rule.scope == Any then 10 else 100)
  {
  }

  /** One iteration of the loop in `r` (apply.py:87-92): the first match is
      kept until a later one has strictly greater priority. */
  function Step(cur: Option<ConfigPath>, candidate: Option<ConfigPath>): Option<ConfigPath> {
    if candidate.None? then cur
    else if cur.None? then candidate
    else if candidate.value.prio > cur.value.prio then candidate
    else cur
  }

  /** What `cur` holds after the loop of `r` has seen all of `rules`. */
  function Chosen(rules: seq<Rule>, p: Platform): Option<ConfigPath>
    decreases |rules|
  {
    if rules == [] then None
    else Step(Chosen(rules[..|rules| - 1], p), Thunk(rules[|rules| - 1], p))
  }

  /** Rule `i` matches, beats every earlier match strictly and is not beaten
      by any later one. */
  ghost predicate IsWinner(rules: seq<Rule>, p: Platform, i: int) {
    && 0 <= i < |rules|
    && Matches(rules[i], p)
    && (forall j :: 0 <= j < i && Matches(rules[j], p) ==> Priority(rules[j].scope) < Priority(rules[i].scope))
    && (forall j :: i < j < |rules| && Matches(rules[j], p) ==> Priority(rules[j].scope) <= Priority(rules[i].scope))
  }

  /** At most one rule wins, so equal priorities are settled by declaration
      order: the first of them wins. */
  lemma WinnerUnique(rules: seq<Rule>, p: Platform, i: int, k: int)
    requires IsWinner(rules, p, i) && IsWinner(rules, p, k)
    ensures i == k
  {
  }

  /** The winner of a prefix stays the winner when the next rule does not
      beat it. */
  lemma WinnerKept(rules: seq<Rule>, p: Platform, i: int)
    requires |rules| > 0 && IsWinner(rules[..|rules| - 1], p, i)
    requires Matches(rules[|rules| - 1], p) ==> Priority(rules[|rules| - 1].scope) <= Priority(rules[i].scope)
    ensures IsWinner(rules, p, i)
  {
    var n := |rules| - 1;
    assert forall j :: 0 <= j < n ==> rules[..n][j] == rules[j];
  }

  /** The next rule wins when it matches and beats every earlier match. */
  lemma WinnerTaken(rules: seq<Rule>, p: Platform)
    requires |rules| > 0 && Matches(rules[|rules| - 1], p)
    requires forall j :: 0 <= j < |rules| - 1 && Matches(rules[j], p) ==>
               Priority(rules[j].scope) < Priority(rules[|rules| - 1].scope)
    ensures IsWinner(rules, p, |rules| - 1)
  {
  }

  /** One more rule after a prefix with winner `i`: either the new rule beats
      it strictly and wins, or `i` stays the winner. */
  lemma StepAfterWinner(rules: seq<Rule>, p: Platform, i: int)
    requires |rules| > 0 && IsWinner(rules[..|rules| - 1], p, i)
    ensures var s := Step(Thunk(rules[i], p), Thunk(rules[|rules| - 1], p));
      (IsWinner(rules, p, i) && s == Thunk(rules[i], p)) ||
      (IsWinner(rules, p, |rules| - 1) && s == Thunk(rules[|rules| - 1], p))
  {
    var n := |rules| - 1;
    assert rules[..n][i] == rules[i];
    ScopeMatching(rules[i], p);
    ScopeMatching(rules[n], p);
    var cand := Thunk(rules[n], p);
    if cand.Some? && cand.value.prio > Priority(rules[i].scope) {
      assert forall j :: 0 <= j < n ==> rules[..n][j] == rules[j];
      assert forall j :: 0 <= j < n && Matches(rules[j], p) ==>
        Priority(rules[j].scope) <= Priority(rules[i].scope);
      WinnerTaken(rules, p);
    } else {
      WinnerKept(rules, p, i);
    }
  }

  /** The loop in `r` keeps nothing when no rule matches; otherwise it keeps
      the winner's `ConfigPath`. */
  lemma {:induction false} ChosenIsWinner(rules: seq<Rule>, p: Platform)
    ensures Chosen(rules, p).None? <==> forall j :: 0 <= j < |rules| ==> !Matches(rules[j], p)
    ensures Chosen(rules, p).Some? ==>
      exists i :: IsWinner(rules, p, i) && Chosen(rules, p) == Thunk(rules[i], p)
    decreases |rules|
  {
    if rules != [] {
      var n := |rules| - 1;
      var init := rules[..n];
      ChosenIsWinner(init, p);
      assert forall j :: 0 <= j < n ==> init[j] == rules[j];
      var cur := Chosen(init, p);
      if cur.Some? {
        var i :| IsWinner(init, p, i) && cur == Thunk(init[i], p);
        assert init[i] == rules[i];
        StepAfterWinner(rules, p, i);
      } else if Matches(rules[n], p) {
        WinnerTaken(rules, p);
      }
    }
  }

  /** What `r` makes of the winning `ConfigPath`'s path (apply.py:94-96):
      an `Ignore` is returned as it is, a pattern is resolved. */
  function Settle(t: Target, reg: Resolver.Registry, home: string): Result<Target> {
    match t
    case Ignore(_) => Ok(t)
    case Path(pat) =>
      match Resolver.Resolved(reg, home, pat)
      case Err(f) => Err(f)
      case Ok(s) => Ok(Path(s))
  }

  /** `r(*rules)` (apply.py:84-97) once the loop is done: no match gives a
      fresh `Ignore()`, otherwise the winner's path is settled. */
  function Verdict(rules: seq<Rule>, p: Platform, reg: Resolver.Registry, home: string): Result<Target> {
    match Chosen(rules, p)
    case None => Ok(Ignore(""))
    case Some(c) => Settle(c.path, reg, home)
  }

  /** The verdict in terms of the winning rule alone. */
  lemma VerdictOfWinner(rules: seq<Rule>, p: Platform, reg: Resolver.Registry, home: string)
    ensures (forall j :: 0 <= j < |rules| ==> !Matches(rules[j], p)) ==> Verdict(rules, p, reg, home) == Ok(Ignore(""))
    ensures forall i :: IsWinner(rules, p, i) ==> Verdict(rules, p, reg, home) == Settle(rules[i].target, reg, home)
  {
    ChosenIsWinner(rules, p);
    forall i | IsWinner(rules, p, i)
      ensures Chosen(rules, p) == Thunk(rules[i], p)
    {
      var k :| IsWinner(rules, p, k) && Chosen(rules, p) == Thunk(rules[k], p);
      WinnerUnique(rules, p, i, k);
    }
    forall i | IsWinner(rules, p, i)
      ensures Verdict(rules, p, reg, home) == Settle(rules[i].target, reg, home)
    {
      ScopeMatching(rules[i], p);
    }
  }

  /** The dispatch `c` (apply.py:100-103): a tuple goes through `r`, anything
      else reaches `config` untouched, without token resolution. */
  function Dispatch(choice: Choice, p: Platform, reg: Resolver.Registry, home: string): (r: Result<Target>)
    ensures choice.Direct? ==> r == Ok(choice.target)
    ensures r.Err? ==> r.fault.Malformed? || r.fault.UnknownToken? || r.fault.Cyclic?
  {
    match choice
    case Direct(t) => Ok(t)
    case Rules(rules) => Verdict(rules, p, reg, home)
  }

  /** The loop of `r` (apply.py:85-92). */
  method Pick(rules: seq<Rule>, p: Platform) returns (cur: Option<ConfigPath>)
    ensures cur == Chosen(rules, p)
  {
    cur := None;
    for i := 0 to |rules|
      invariant cur == Chosen(rules[..i], p)
    {
      assert rules[..i + 1][..i] == rules[..i];
      var pathRule := Thunk(rules[i], p);
      if pathRule.Some? {
        if cur.None? {
          cur := pathRule;
        } else if pathRule.value.prio > cur.value.prio {
          cur := pathRule;
        }
      }
    }
    assert rules[..|rules|] == rules;
  }

  /** `r(*rules)` with the resolver `res`. */
  method Select(rules: seq<Rule>, p: Platform, res: Resolver.PathResolver, home: string) returns (v: Result<Target>)
    ensures v == Verdict(rules, p, res.resolvers, home)
  {
    var cur := Pick(rules, p);
    if cur.None? {
      return Ok(Ignore(""));
    }
    if cur.value.path.Ignore? {
      return Ok(cur.value.path);
    }
    var s := res.Resolve(home, cur.value.path.path);
    if s.Err? {
      return Err(s.fault);
    }
    v := Ok(Path(s.value));
  }
}
