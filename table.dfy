/** The binding table of `apply` (apply.py:112-120) and the registry that
    `main` seeds for the platform (apply.py:150-156). */
module Table {
  import opened Faults
  import opened Rules
  import Resolver
  import OsPath

  const LOCAL_APP_DATA := "LocalAppData"
  const ROAMING_APP_DATA := "RoamingAppData"
  const LIBRARY_PREFERENCES := "LibraryPreferences"

  /** The three `_(name) >> ...` statements, in order. */
  const BINDINGS: seq<Binding> := [
    Binding("ripgreprc", Direct(Path("~/.config/ripgreprc"))),
    Binding("neovide", Rules([
      Rule(Win, Path("%LocalAppData%/neovide")),
      Rule(Any, Path("~/.config/neovide"))])),
    Binding("clangd", Rules([
      Rule(Win, Path("%LocalAppData%/clangd")),
      Rule(Lin, Path("~/.config/clangd")),
      Rule(Mac, Path("%LibraryPreferences%/clangd"))]))
  ]

  /** The entries `main` adds before running `apply`. */
  function Seeded(p: Platform): Resolver.Registry {
    match p
    case Windows =>
      map[LOCAL_APP_DATA := Resolver.Pattern("~/AppData/Local/"),
          ROAMING_APP_DATA := Resolver.Pattern("~/AppData/Roaming/")]
    case MacOS =>
      map[LIBRARY_PREFERENCES := Resolver.Pattern("~/Library/Preferences")]
    case _ => map[]
  }

  /** `resolver = PathResolver()` followed by the `add` calls of apply.py:150-156. */
  method NewResolver(p: Platform) returns (res: Resolver.PathResolver)
    ensures fresh(res) && res.resolvers == Seeded(p)
  {
    res := new Resolver.PathResolver();
    if p == Windows {
      res.Add(LOCAL_APP_DATA, Resolver.Pattern("~/AppData/Local/"));
      res.Add(ROAMING_APP_DATA, Resolver.Pattern("~/AppData/Roaming/"));
    }
    if p == MacOS {
      res.Add(LIBRARY_PREFERENCES, Resolver.Pattern("~/Library/Preferences"));
    }
  }

  /** `~/rest` expands to the home directory without its trailing slashes, then `rest`. */
  lemma HomeRelative(home: string, rest: string)
    requires rest != [] && rest[0] == '/'
    ensures OsPath.ExpandUser(home, "~" + rest) == OsPath.RStripSlash(home) + rest
  {
    assert ("~" + rest)[1..] == rest;
  }

  /** A text without `%` scans to itself. */
  lemma LiteralScan(reg: Resolver.Registry, home: string, visiting: set<string>, orig: string, lit: string)
    requires '%' !in lit
    ensures Resolver.Scan(reg, home, visiting, orig, lit) == Ok(lit)
  {
    Resolver.LiteralsCopied(reg, home, visiting, orig, lit, []);
    assert lit + [] == lit;
  }

  /** `~/rest` resolves to the home directory followed by `rest`. */
  lemma HomeRelativeResolves(reg: Resolver.Registry, home: string, visiting: set<string>, rest: string)
    requires rest != [] && rest[0] == '/' && '%' !in rest && '%' !in home
    ensures Resolver.Scan(reg, home, visiting, "~" + rest, OsPath.ExpandUser(home, "~" + rest)) ==
            Ok(OsPath.RStripSlash(home) + rest)
  {
    HomeRelative(home, rest);
    OsPath.ExpandUserChars(home, "~" + rest, '%');
    LiteralScan(reg, home, visiting, "~" + rest, OsPath.ExpandUser(home, "~" + rest));
  }

  /** `%token%rest` where `token` holds the home-relative pattern `~entry`. */
  lemma TokenThenLiteral(reg: Resolver.Registry, home: string, token: string, entry: string, rest: string)
    requires token in reg && reg[token] == Resolver.Pattern("~" + entry)
    requires '%' !in token && '%' !in home && '%' !in entry && '%' !in rest
    requires entry != [] && entry[0] == '/'
    ensures Resolver.Resolved(reg, home, "%" + token + "%" + rest) ==
            Ok(OsPath.RStripSlash(home) + entry + rest)
  {
    var pat := "%" + token + "%" + rest;
    assert OsPath.ExpandUser(home, pat) == pat;
    Resolver.TokenReplaced(reg, home, {}, pat, token, rest);
    assert {} + {token} == {token};
    HomeRelativeResolves(reg, home, {token}, entry);
    LiteralScan(reg, home, {}, pat, rest);
  }

  const NEOVIDE_RULES := BINDINGS[1].choice.rules
  const CLANGD_RULES := BINDINGS[2].choice.rules

  /** The neovide rules: `win` on Windows, `any` elsewhere. */
  lemma NeovideChosen(p: Platform)
    ensures Chosen(NEOVIDE_RULES, p) ==
      if p == Windows then Some(ConfigPath(Path("%LocalAppData%/neovide"), 100))
      else Some(ConfigPath(Path("~/.config/neovide"), 10))
  {
    assert NEOVIDE_RULES[..1] == [NEOVIDE_RULES[0]];
    assert [NEOVIDE_RULES[0]][..0] == [];
  }

  /** The clangd rules: the OS rule on each OS, nothing on an undetected host. */
  lemma ClangdChosen(p: Platform)
    ensures Chosen(CLANGD_RULES, p) ==
      match p
      case Windows => Some(ConfigPath(Path("%LocalAppData%/clangd"), 100))
      case Linux => Some(ConfigPath(Path("~/.config/clangd"), 100))
      case MacOS => Some(ConfigPath(Path("%LibraryPreferences%/clangd"), 100))
      case Undetected => None
  {
    var rs := CLANGD_RULES;
    assert rs[..2][..1] == [rs[0]];
    assert [rs[0]][..0] == [];
    assert Chosen(rs[..1], p) == Thunk(rs[0], p);
    assert rs[..2] == [rs[0], rs[1]];
    assert Chosen(rs[..2], p) == Step(Thunk(rs[0], p), Thunk(rs[1], p));
    assert Chosen(rs, p) == Step(Step(Thunk(rs[0], p), Thunk(rs[1], p)), Thunk(rs[2], p));
  }

  /** The verdict of rules whose winner is the path pattern `pat`. */
  lemma ResolvedVerdict(rules: seq<Rule>, p: Platform, reg: Resolver.Registry, home: string, pat: string, prio: int, v: string)
    requires Chosen(rules, p) == Some(ConfigPath(Path(pat), prio))
    requires Resolver.Resolved(reg, home, pat) == Ok(v)
    ensures Dispatch(Rules(rules), p, reg, home) == Ok(Path(v))
  {
  }

  /** ripgreprc is a plain string binding: it is passed on unresolved. */
  lemma RipgreprcVerdict(p: Platform, home: string)
    ensures Dispatch(BINDINGS[0].choice, p, Seeded(p), home) == Ok(Path("~/.config/ripgreprc"))
  {
  }

  /** `%token%rest` where the entry `token` is `~entry`: the home directory, `entry`, `rest`. */
  lemma TokenPath(reg: Resolver.Registry, home: string, token: string, entry: string, pat: string, rest: string, full: string)
    requires '%' !in home && '%' !in rest && '%' !in token && '%' !in entry
    requires entry != [] && entry[0] == '/'
    requires token in reg && reg[token] == Resolver.Pattern("~" + entry)
    requires pat == "%" + token + "%" + rest && full == entry + rest
    ensures Resolver.Resolved(reg, home, pat) == Ok(OsPath.RStripSlash(home) + full)
  {
    TokenThenLiteral(reg, home, token, entry, rest);
    assert OsPath.RStripSlash(home) + entry + rest == OsPath.RStripSlash(home) + (entry + rest);
  }

  /** The pattern of the neovide rule that wins on `p`. */
  function NeovidePattern(p: Platform): string {
    if p == Windows then "%LocalAppData%/neovide" else "~/.config/neovide"
  }

  /** The pattern of the clangd rule that wins on an OS. */
  function ClangdPattern(p: Platform): string
    requires p != Undetected
  {
    match p
    case Windows => "%LocalAppData%/clangd"
    case Linux => "~/.config/clangd"
    case MacOS => "%LibraryPreferences%/clangd"
  }

  lemma NeovideDispatch(p: Platform, home: string, v: string)
    requires Resolver.Resolved(Seeded(p), home, NeovidePattern(p)) == Ok(v)
    ensures Dispatch(BINDINGS[1].choice, p, Seeded(p), home) == Ok(Path(v))
  {
    NeovideChosen(p);
    ResolvedVerdict(NEOVIDE_RULES, p, Seeded(p), home, NeovidePattern(p), if p == Windows then 100 else 10, v);
  }

  lemma ClangdDispatch(p: Platform, home: string, v: string)
    requires p != Undetected
    requires Resolver.Resolved(Seeded(p), home, ClangdPattern(p)) == Ok(v)
    ensures Dispatch(BINDINGS[2].choice, p, Seeded(p), home) == Ok(Path(v))
  {
    ClangdChosen(p);
    ResolvedVerdict(CLANGD_RULES, p, Seeded(p), home, ClangdPattern(p), 100, v);
  }

  /** The literal facts about the Windows entry that the lemmas below use;
      kept apart so that the solver meets the string literals on their own. */
  lemma SeededWindows()
    ensures LOCAL_APP_DATA in Seeded(Windows) && Seeded(Windows)[LOCAL_APP_DATA] == Resolver.Pattern("~" + "/AppData/Local/")
    ensures '%' !in LOCAL_APP_DATA && '%' !in "/AppData/Local/"
  {
  }

  /** The literal facts about the macOS entry that the lemmas below use. */
  lemma SeededMac()
    ensures LIBRARY_PREFERENCES in Seeded(MacOS) && Seeded(MacOS)[LIBRARY_PREFERENCES] == Resolver.Pattern("~" + "/Library/Preferences")
    ensures '%' !in LIBRARY_PREFERENCES && '%' !in "/Library/Preferences"
  {
  }

  lemma NeovideWindowsPattern()
    ensures "%LocalAppData%/neovide" == "%" + LOCAL_APP_DATA + "%" + "/neovide"
    ensures "/AppData/Local//neovide" == "/AppData/Local/" + "/neovide" && '%' !in "/neovide"
  {
  }

  lemma ClangdWindowsPattern()
    ensures "%LocalAppData%/clangd" == "%" + LOCAL_APP_DATA + "%" + "/clangd"
    ensures "/AppData/Local//clangd" == "/AppData/Local/" + "/clangd" && '%' !in "/clangd"
  {
  }

  lemma ClangdMacPattern()
    ensures "%LibraryPreferences%/clangd" == "%" + LIBRARY_PREFERENCES + "%" + "/clangd"
    ensures "/Library/Preferences/clangd" == "/Library/Preferences" + "/clangd" && '%' !in "/clangd"
  {
  }

  lemma NeovideWindowsResolved(home: string)
    requires '%' !in home
    ensures Resolver.Resolved(Seeded(Windows), home, "%LocalAppData%/neovide") ==
            Ok(OsPath.RStripSlash(home) + "/AppData/Local//neovide")
  {
    SeededWindows();
    NeovideWindowsPattern();
    TokenPath(Seeded(Windows), home, LOCAL_APP_DATA, "/AppData/Local/", "%LocalAppData%/neovide", "/neovide", "/AppData/Local//neovide");
  }

  lemma ClangdWindowsResolved(home: string)
    requires '%' !in home
    ensures Resolver.Resolved(Seeded(Windows), home, "%LocalAppData%/clangd") ==
            Ok(OsPath.RStripSlash(home) + "/AppData/Local//clangd")
  {
    SeededWindows();
    ClangdWindowsPattern();
    TokenPath(Seeded(Windows), home, LOCAL_APP_DATA, "/AppData/Local/", "%LocalAppData%/clangd", "/clangd", "/AppData/Local//clangd");
  }

  lemma ClangdMacResolved(home: string)
    requires '%' !in home
    ensures Resolver.Resolved(Seeded(MacOS), home, "%LibraryPreferences%/clangd") ==
            Ok(OsPath.RStripSlash(home) + "/Library/Preferences/clangd")
  {
    SeededMac();
    ClangdMacPattern();
    TokenPath(Seeded(MacOS), home, LIBRARY_PREFERENCES, "/Library/Preferences", "%LibraryPreferences%/clangd", "/clangd", "/Library/Preferences/clangd");
  }

  lemma ConfigPatterns()
    ensures "~/.config/neovide" == "~" + "/.config/neovide" && '%' !in "/.config/neovide"
    ensures "~/.config/clangd" == "~" + "/.config/clangd" && '%' !in "/.config/clangd"
  {
  }

  lemma ConfigDirResolved(reg: Resolver.Registry, home: string, pat: string, rest: string)
    requires '%' !in home && '%' !in rest && rest != [] && rest[0] == '/'
    requires pat == "~" + rest
    ensures Resolver.Resolved(reg, home, pat) == Ok(OsPath.RStripSlash(home) + rest)
  {
    HomeRelativeResolves(reg, home, {}, rest);
  }

  /** neovide: on Windows the `%LocalAppData%` entry ends in `/`, so the path
      holds `//`; on every other host the `any` rule gives `~/.config/neovide`. */
  lemma NeovideVerdict(p: Platform, home: string)
    requires '%' !in home
    ensures Dispatch(BINDINGS[1].choice, p, Seeded(p), home) ==
      if p == Windows then Ok(Path(OsPath.RStripSlash(home) + "/AppData/Local//neovide"))
      else Ok(Path(OsPath.RStripSlash(home) + "/.config/neovide"))
  {
    var h := OsPath.RStripSlash(home);
    if p == Windows {
      NeovideWindowsResolved(home);
      NeovideDispatch(p, home, h + "/AppData/Local//neovide");
    } else {
      ConfigPatterns();
      ConfigDirResolved(Seeded(p), home, "~/.config/neovide", "/.config/neovide");
      NeovideDispatch(p, home, h + "/.config/neovide");
    }
  }

  /** clangd on each platform; on an undetected host no rule matches and the
      verdict is `Ignore()`. */
  lemma ClangdVerdict(p: Platform, home: string)
    requires '%' !in home
    ensures Dispatch(BINDINGS[2].choice, p, Seeded(p), home) ==
      match p
      case Windows => Ok(Path(OsPath.RStripSlash(home) + "/AppData/Local//clangd"))
      case Linux => Ok(Path(OsPath.RStripSlash(home) + "/.config/clangd"))
      case MacOS => Ok(Path(OsPath.RStripSlash(home) + "/Library/Preferences/clangd"))
      case Undetected => Ok(Ignore(""))
  {
    var h := OsPath.RStripSlash(home);
    match p
    case Windows =>
      ClangdWindowsResolved(home);
      ClangdDispatch(p, home, h + "/AppData/Local//clangd");
    case Linux =>
      ConfigPatterns();
      ConfigDirResolved(Seeded(p), home, "~/.config/clangd", "/.config/clangd");
      ClangdDispatch(p, home, h + "/.config/clangd");
    case MacOS =>
      ClangdMacResolved(home);
      ClangdDispatch(p, home, h + "/Library/Preferences/clangd");
    case Undetected =>
      ClangdChosen(p);
  }
}
