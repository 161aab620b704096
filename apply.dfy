/** The `config` callback of `main` (apply.py:158-181) and the whole run:
    `main` seeds the resolver (apply.py:150-156), then `apply` hands each
    binding's verdict to `config` in table order (apply.py:112-120). */
module Apply {
  import opened Faults
  import opened OsPath
  import opened Rules
  import Resolver
  import Table
  import opened Sync

  /** `--dry-run` and `--clean`. */
  datatype Flags = Flags(dryRun: bool, clean: bool)

  /** A line `config` prints: `Ignoring name` (reason "") or
      `Ignoring name: reason`, `Will remove path`, `Will link path -> name`. */
  datatype Message =
    | Ignoring(name: string, reason: string)
    | WillRemove(path: string)
    | WillLink(path: string, name: string)

  /** The filesystem after some steps, the lines printed so far, and the
      exception that ended the run, if one did. */
  datatype Effect = Effect(nodes: FsMap, said: seq<Message>, fault: Option<Fault>)

  /** The printed text of a message. */
  function Text(msg: Message): string {
    match msg
    case Ignoring(name, reason) =>
      if reason == [] then "Ignoring " + name else "Ignoring " + name + ": " + reason
    case WillRemove(path) => "Will remove " + path
    case WillLink(path, name) => "Will link " + path + " -> " + name
  }

  /** `config(name, b)` on the filesystem `m`, with the script's directory
      `root` and the home directory `home`. */
  function Configured(m: FsMap, flags: Flags, home: string, root: string, name: string, b: Target): (e: Effect)
    ensures b.Ignore? ==> e == Effect(m, [Ignoring(name, b.reason)], None)
    ensures flags.dryRun ==> e.nodes == m && e.fault == None
    ensures b.Path? && flags.dryRun ==>
      e.said == [if flags.clean then WillRemove(ExpandUser(home, b.path)) else WillLink(ExpandUser(home, b.path), name)]
    ensures b.Path? && !flags.dryRun ==> e.said == []
  {
    match b
    case Ignore(why) => Effect(m, [Ignoring(name, why)], None)
    case Path(q) =>
      var dest := ExpandUser(home, q);
      if flags.clean then
        if flags.dryRun then Effect(m, [WillRemove(dest)], None)
        else Effect(Removed(m, dest), [], None)
      else if flags.dryRun then Effect(m, [WillLink(dest, name)], None)
      else
        match Linking(m, dest, Join(root, name))
        case Err(f) => Effect(m, [], Some(f))
        case Ok(linked) => Effect(linked, [], None)
  }

  /** What `config` does to the filesystem without `--dry-run`: clean mode
      clears the expanded destination and cannot fail; create mode links it
      to `root/name`, failing with the filesystem untouched only when
      something that cannot be cleared is in the way. */
  lemma ConfiguredEffects(m: FsMap, flags: Flags, home: string, root: string, name: string, pat: string)
    requires !flags.dryRun
    ensures var e := Configured(m, flags, home, root, name, Path(pat));
      var dest := ExpandUser(home, pat);
      (flags.clean ==> e.fault == None && e.nodes == Removed(m, dest)) &&
      (!flags.clean ==> (e.fault.Some? <==> Blocks(m, dest))) &&
      (!flags.clean && e.fault.Some? ==> e.fault == Some(LinkBlocked(dest)) && e.nodes == m) &&
      (!flags.clean && e.fault.None? ==> e.nodes == Linking(m, dest, Join(root, name)).value)
  {
  }

  /** `said` printed before the steps that produced `e`. */
  function After(said: seq<Message>, e: Effect): Effect {
    Effect(e.nodes, said + e.said, e.fault)
  }

  /** `_(name) >> choice`: the dispatch `c`, whose verdict goes to `config`
      unless resolving it raised. */
  function Bound(m: FsMap, reg: Resolver.Registry, p: Platform, home: string, root: string, flags: Flags, binding: Binding): Effect {
    match Dispatch(binding.choice, p, reg, home)
    case Err(f) => Effect(m, [], Some(f))
    case Ok(b) => Configured(m, flags, home, root, binding.name, b)
  }

  /** The bindings `bs` applied in order from `m`; the first exception, from
      resolution or from `os.symlink`, ends the run and what was done before
      it stays done. */
  function Applied(m: FsMap, reg: Resolver.Registry, p: Platform, home: string, root: string, flags: Flags, bs: seq<Binding>): Effect
    decreases |bs|
  {
    if bs == [] then Effect(m, [], None)
    else
      var e := Bound(m, reg, p, home, root, flags, bs[0]);
      if e.fault.Some? then e
      else After(e.said, Applied(e.nodes, reg, p, home, root, flags, bs[1..]))
  }

  /** Going on with `more` after the effect `e`, unless `e` ended the run. */
  function Resume(e: Effect, reg: Resolver.Registry, p: Platform, home: string, root: string, flags: Flags, more: seq<Binding>): Effect {
    if e.fault.Some? then e else After(e.said, Applied(e.nodes, reg, p, home, root, flags, more))
  }

  /** A run over `bs + more` is the run over `bs` followed by the run over
      `more` from where it left off; a fault in `bs` means `more` is never
      looked at. */
  lemma {:induction false} AppliedAppend(m: FsMap, reg: Resolver.Registry, p: Platform, home: string, root: string, flags: Flags, bs: seq<Binding>, more: seq<Binding>)
    ensures Applied(m, reg, p, home, root, flags, bs + more) ==
            Resume(Applied(m, reg, p, home, root, flags, bs), reg, p, home, root, flags, more)
    decreases |bs|
  {
    if bs == [] {
      assert [] + more == more;
    } else {
      assert (bs + more)[0] == bs[0];
      assert (bs + more)[1..] == bs[1..] + more;
      var e := Bound(m, reg, p, home, root, flags, bs[0]);
      if e.fault.None? {
        AppliedAppend(e.nodes, reg, p, home, root, flags, bs[1..], more);
        var tail := Applied(e.nodes, reg, p, home, root, flags, bs[1..]);
        if tail.fault.None? {
          var rest := Applied(tail.nodes, reg, p, home, root, flags, more);
          assert e.said + (tail.said + rest.said) == (e.said + tail.said) + rest.said;
        }
      }
    }
  }

  /** A run with `--dry-run` leaves the filesystem as it was, and only a
      resolution fault can end it. Without `--dry-run`, `--clean` cannot fail
      on the filesystem either. */
  lemma {:induction false} QuietRuns(m: FsMap, reg: Resolver.Registry, p: Platform, home: string, root: string, flags: Flags, bs: seq<Binding>)
    ensures flags.dryRun ==> Applied(m, reg, p, home, root, flags, bs).nodes == m
    ensures flags.dryRun || flags.clean ==>
      var e := Applied(m, reg, p, home, root, flags, bs);
      e.fault.Some? ==> !e.fault.value.LinkBlocked?
    decreases |bs|
  {
    if bs != [] {
      var e := Bound(m, reg, p, home, root, flags, bs[0]);
      QuietRuns(e.nodes, reg, p, home, root, flags, bs[1..]);
    }
  }

  /** Running the same step twice without `--dry-run` has the effect of
      running it once: links are not duplicated, removal is not repeated. */
  lemma ConfigIdempotent(m: FsMap, flags: Flags, home: string, root: string, name: string, b: Target)
    requires Configured(m, flags, home, root, name, b).fault.None?
    ensures var once := Configured(m, flags, home, root, name, b);
      Configured(once.nodes, flags, home, root, name, b) == once
  {
    if b.Path? && !flags.dryRun {
      var dest := ExpandUser(home, b.path);
      if flags.clean {
        RemoveIdempotent(m, dest);
      } else {
        LinkIdempotent(m, dest, Join(root, name));
      }
    }
  }

  /** Cleaning after a successful link removes the link and leaves what
      cleaning alone would have left. */
  lemma CreateThenClean(m: FsMap, home: string, root: string, name: string, pat: string)
    requires Configured(m, Flags(false, false), home, root, name, Path(pat)).fault.None?
    ensures var created := Configured(m, Flags(false, false), home, root, name, Path(pat));
      var cleaned := Configured(created.nodes, Flags(false, true), home, root, name, Path(pat));
      cleaned.nodes == Removed(m, ExpandUser(home, pat)) && ExpandUser(home, pat) !in cleaned.nodes
  {
    CleanAfterLink(m, ExpandUser(home, pat), Join(root, name));
  }

  /** A path under an absolute home is not expanded a second time. */
  lemma ExpandedStays(home: string, rest: string)
    requires home != [] && home[0] == '/' && rest != [] && rest[0] == '/'
    ensures ExpandUser(home, RStripSlash(home) + rest) == RStripSlash(home) + rest
  {
    var h := RStripSlash(home);
    assert (h + rest)[0] == '/' by {
      if h != [] {
        assert h[0] == home[0];
      }
    }
  }

  /** Three steps, each printing one line and changing nothing. */
  lemma ThreeQuietSteps(m: FsMap, reg: Resolver.Registry, p: Platform, home: string, root: string, flags: Flags, bs: seq<Binding>, said0: Message, said1: Message, said2: Message)
    requires |bs| == 3
    requires Bound(m, reg, p, home, root, flags, bs[0]) == Effect(m, [said0], None)
    requires Bound(m, reg, p, home, root, flags, bs[1]) == Effect(m, [said1], None)
    requires Bound(m, reg, p, home, root, flags, bs[2]) == Effect(m, [said2], None)
    ensures Applied(m, reg, p, home, root, flags, bs) == Effect(m, [said0, said1, said2], None)
  {
    AppliedFrom(m, reg, p, home, root, flags, bs, 0);
    AppliedFrom(m, reg, p, home, root, flags, bs, 1);
    AppliedFrom(m, reg, p, home, root, flags, bs, 2);
    assert bs[0..] == bs && bs[3..] == [];
    assert [said0] + ([said1] + [said2]) == [said0, said1, said2];
  }

  /** What a dry run prints for ripgreprc, with `h` the home directory. */
  function RipgreprcLine(h: string): Message {
    WillLink(h + "/.config/ripgreprc", "ripgreprc")
  }

  /** What a dry run prints for neovide on host `p`. */
  function NeovideLine(p: Platform, h: string): Message {
    WillLink(h + (if p == Windows then "/AppData/Local//neovide" else "/.config/neovide"), "neovide")
  }

  /** What a dry run prints for clangd on host `p`. */
  function ClangdLine(p: Platform, h: string): Message {
    match p
    case Windows => WillLink(h + "/AppData/Local//clangd", "clangd")
    case MacOS => WillLink(h + "/Library/Preferences/clangd", "clangd")
    case Linux => WillLink(h + "/.config/clangd", "clangd")
    case Undetected => Ignoring("clangd", "")
  }

  lemma DryRipgreprc(m: FsMap, p: Platform, home: string, root: string)
    ensures Bound(m, Table.Seeded(p), p, home, root, Flags(true, false), Table.BINDINGS[0]) ==
            Effect(m, [RipgreprcLine(RStripSlash(home))], None)
  {
    Table.RipgreprcVerdict(p, home);
    Table.HomeRelative(home, "/.config/ripgreprc");
  }

  lemma DryNeovide(m: FsMap, p: Platform, home: string, root: string)
    requires '%' !in home && home != [] && home[0] == '/'
    ensures Bound(m, Table.Seeded(p), p, home, root, Flags(true, false), Table.BINDINGS[1]) ==
            Effect(m, [NeovideLine(p, RStripSlash(home))], None)
  {
    Table.NeovideVerdict(p, home);
    ExpandedStays(home, if p == Windows then "/AppData/Local//neovide" else "/.config/neovide");
  }

  lemma DryClangd(m: FsMap, p: Platform, home: string, root: string)
    requires '%' !in home && home != [] && home[0] == '/'
    ensures Bound(m, Table.Seeded(p), p, home, root, Flags(true, false), Table.BINDINGS[2]) ==
            Effect(m, [ClangdLine(p, RStripSlash(home))], None)
  {
    Table.ClangdVerdict(p, home);
    match p
    case Windows => ExpandedStays(home, "/AppData/Local//clangd");
    case MacOS => ExpandedStays(home, "/Library/Preferences/clangd");
    case Linux => ExpandedStays(home, "/.config/clangd");
    case Undetected =>
  }

  /** The printed form of a `Will link` line. */
  lemma WillLinkText(path: string, name: string)
    ensures Text(WillLink(path, name)) == "Will link " + path + " -> " + name
  {
  }

  /** The printed form of the dry-run lines: `Will link <path> -> <name>`,
      and `Ignoring clangd` with no reason part. */
  lemma DryRunText(p: Platform, h: string)
    ensures Text(RipgreprcLine(h)) == "Will link " + (h + "/.config/ripgreprc") + " -> ripgreprc"
    ensures Text(NeovideLine(p, h)) ==
      "Will link " + (h + (if p == Windows then "/AppData/Local//neovide" else "/.config/neovide")) + " -> neovide"
    ensures Text(ClangdLine(Undetected, h)) == "Ignoring clangd"
  {
    WillLinkText(h + "/.config/ripgreprc", "ripgreprc");
    WillLinkText(h + (if p == Windows then "/AppData/Local//neovide" else "/.config/neovide"), "neovide");
  }

  /** A dry run of the whole table on host `p` with an absolute home: one
      `Will link` line per binding, except clangd on an undetected host,
      which is ignored; nothing is changed and nothing fails. */
  lemma DryRunReport(m: FsMap, p: Platform, home: string, root: string)
    requires '%' !in home && home != [] && home[0] == '/'
    ensures var h := RStripSlash(home);
      Applied(m, Table.Seeded(p), p, home, root, Flags(true, false), Table.BINDINGS) ==
      Effect(m, [RipgreprcLine(h), NeovideLine(p, h), ClangdLine(p, h)], None)
  {
    var h := RStripSlash(home);
    DryRipgreprc(m, p, home, root);
    DryNeovide(m, p, home, root);
    DryClangd(m, p, home, root);
    ThreeQuietSteps(m, Table.Seeded(p), p, home, root, Flags(true, false), Table.BINDINGS,
      RipgreprcLine(h), NeovideLine(p, h), ClangdLine(p, h));
  }

  /** The path `config` acts on for `binding`: the expanded destination of a
      path verdict; none for an `Ignore` verdict or a resolution fault. */
  function Destination(reg: Resolver.Registry, p: Platform, home: string, binding: Binding): Option<string> {
    match Dispatch(binding.choice, p, reg, home)
    case Ok(Path(q)) => Some(ExpandUser(home, q))
    case _ => None
  }

  /** No destination of `bs` is another's, or lies inside another's. */
  predicate Separated(reg: Resolver.Registry, p: Platform, home: string, bs: seq<Binding>) {
    forall i, j ::
      (0 <= i < |bs| && 0 <= j < |bs| && i != j &&
       Destination(reg, p, home, bs[i]).Some? && Destination(reg, p, home, bs[j]).Some?) ==>
      !Within(Destination(reg, p, home, bs[i]).value, Destination(reg, p, home, bs[j]).value)
  }

  /** Every destination of `bs` holds the link to its file under `root`. */
  predicate Linked(m: FsMap, reg: Resolver.Registry, p: Platform, home: string, root: string, bs: seq<Binding>) {
    forall i :: 0 <= i < |bs| && Destination(reg, p, home, bs[i]).Some? ==>
      Destination(reg, p, home, bs[i]).value in m &&
      m[Destination(reg, p, home, bs[i]).value] == Link(Join(root, bs[i].name))
  }

  /** A path outside the destination of one step keeps what it held. */
  lemma StepKeepsOutside(m: FsMap, reg: Resolver.Registry, p: Platform, home: string, root: string, flags: Flags, binding: Binding, q: string)
    requires q in m
    requires Destination(reg, p, home, binding).Some? ==> !Within(q, Destination(reg, p, home, binding).value)
    ensures var e := Bound(m, reg, p, home, root, flags, binding);
      q in e.nodes && e.nodes[q] == m[q]
  {
    var v := Dispatch(binding.choice, p, reg, home);
    if v.Ok? && v.value.Path? && !flags.dryRun {
      ConfiguredEffects(m, flags, home, root, binding.name, v.value.path);
    }
  }

  /** A path outside every destination of a run keeps what it held. */
  lemma {:induction false} OutsideKept(m: FsMap, reg: Resolver.Registry, p: Platform, home: string, root: string, flags: Flags, bs: seq<Binding>, q: string)
    requires q in m
    requires forall i :: 0 <= i < |bs| && Destination(reg, p, home, bs[i]).Some? ==>
      !Within(q, Destination(reg, p, home, bs[i]).value)
    ensures var e := Applied(m, reg, p, home, root, flags, bs);
      q in e.nodes && e.nodes[q] == m[q]
    decreases |bs|
  {
    if bs != [] {
      StepKeepsOutside(m, reg, p, home, root, flags, bs[0], q);
      var e := Bound(m, reg, p, home, root, flags, bs[0]);
      if e.fault.None? {
        assert forall i :: 0 <= i < |bs[1..]| ==> bs[1..][i] == bs[i + 1];
        OutsideKept(e.nodes, reg, p, home, root, flags, bs[1..], q);
      }
    }
  }

  /** After a create run that did not fail, every destination holds its
      link, provided the destinations are separated. */
  lemma {:induction false} LinksHeld(m: FsMap, reg: Resolver.Registry, p: Platform, home: string, root: string, bs: seq<Binding>)
    requires Applied(m, reg, p, home, root, Flags(false, false), bs).fault.None?
    requires Separated(reg, p, home, bs)
    ensures Linked(Applied(m, reg, p, home, root, Flags(false, false), bs).nodes, reg, p, home, root, bs)
    decreases |bs|
  {
    var flags := Flags(false, false);
    if bs != [] {
      var e := Bound(m, reg, p, home, root, flags, bs[0]);
      var rest := bs[1..];
      assert forall i :: 0 <= i < |rest| ==> rest[i] == bs[i + 1];
      assert Separated(reg, p, home, rest) by {
        forall i, j | 0 <= i < |rest| && 0 <= j < |rest| && i != j &&
          Destination(reg, p, home, rest[i]).Some? && Destination(reg, p, home, rest[j]).Some?
          ensures !Within(Destination(reg, p, home, rest[i]).value, Destination(reg, p, home, rest[j]).value)
        {
          assert rest[i] == bs[i + 1] && rest[j] == bs[j + 1];
        }
      }
      LinksHeld(e.nodes, reg, p, home, root, rest);
      var once := Applied(e.nodes, reg, p, home, root, flags, rest).nodes;
      var d := Destination(reg, p, home, bs[0]);
      if d.Some? {
        var v := Dispatch(bs[0].choice, p, reg, home);
        ConfiguredEffects(m, flags, home, root, bs[0].name, v.value.path);
        forall i | 0 <= i < |rest| && Destination(reg, p, home, rest[i]).Some?
          ensures !Within(d.value, Destination(reg, p, home, rest[i]).value)
        {
          assert rest[i] == bs[i + 1];
        }
        OutsideKept(e.nodes, reg, p, home, root, flags, rest, d.value);
      }
      forall i | 0 <= i < |bs| && Destination(reg, p, home, bs[i]).Some?
        ensures Destination(reg, p, home, bs[i]).value in once &&
          once[Destination(reg, p, home, bs[i]).value] == Link(Join(root, bs[i].name))
      {
        if i > 0 {
          assert bs[i] == rest[i - 1];
        }
      }
    }
  }

  /** A create step whose destination already holds its link changes
      nothing and prints what it printed on `m`. */
  lemma StepOverLink(m: FsMap, linked: FsMap, reg: Resolver.Registry, p: Platform, home: string, root: string, binding: Binding)
    requires Bound(m, reg, p, home, root, Flags(false, false), binding).fault.None?
    requires Destination(reg, p, home, binding).Some? ==>
      Destination(reg, p, home, binding).value in linked &&
      linked[Destination(reg, p, home, binding).value] == Link(Join(root, binding.name))
    ensures Bound(linked, reg, p, home, root, Flags(false, false), binding) ==
            Effect(linked, Bound(m, reg, p, home, root, Flags(false, false), binding).said, None)
  {
    var v := Dispatch(binding.choice, p, reg, home);
    if v.Ok? && v.value.Path? {
      var d := ExpandUser(home, v.value.path);
      ConfiguredEffects(linked, Flags(false, false), home, root, binding.name, v.value.path);
      LinkInPlace(linked, d, Join(root, binding.name));
    }
  }

  /** A create run over destinations that already hold their links changes
      nothing and prints what the first run printed. */
  lemma {:induction false} RerunOverLinks(m: FsMap, linked: FsMap, reg: Resolver.Registry, p: Platform, home: string, root: string, bs: seq<Binding>)
    requires Applied(m, reg, p, home, root, Flags(false, false), bs).fault.None?
    requires Linked(linked, reg, p, home, root, bs)
    ensures Applied(linked, reg, p, home, root, Flags(false, false), bs) ==
            Effect(linked, Applied(m, reg, p, home, root, Flags(false, false), bs).said, None)
    decreases |bs|
  {
    var flags := Flags(false, false);
    if bs != [] {
      var e := Bound(m, reg, p, home, root, flags, bs[0]);
      StepOverLink(m, linked, reg, p, home, root, bs[0]);
      var rest := bs[1..];
      assert forall i :: 0 <= i < |rest| ==> rest[i] == bs[i + 1];
      RerunOverLinks(e.nodes, linked, reg, p, home, root, rest);
    }
  }

  /** Re-running a create run that did not fail has the effect of running it
      once, provided no destination is another's or lies inside another's. */
  lemma CreateRunIdempotent(m: FsMap, reg: Resolver.Registry, p: Platform, home: string, root: string, bs: seq<Binding>)
    requires Applied(m, reg, p, home, root, Flags(false, false), bs).fault.None?
    requires Separated(reg, p, home, bs)
    ensures var once := Applied(m, reg, p, home, root, Flags(false, false), bs);
      Applied(once.nodes, reg, p, home, root, Flags(false, false), bs) == once
  {
    var once := Applied(m, reg, p, home, root, Flags(false, false), bs);
    LinksHeld(m, reg, p, home, root, bs);
    RerunOverLinks(m, once.nodes, reg, p, home, root, bs);
  }

  /** Where ripgreprc lands, with an absolute home. */
  lemma RipgreprcDestination(p: Platform, home: string)
    ensures Destination(Table.Seeded(p), p, home, Table.BINDINGS[0]) == Some(RStripSlash(home) + "/.config/ripgreprc")
  {
    Table.RipgreprcVerdict(p, home);
    Table.HomeRelative(home, "/.config/ripgreprc");
  }

  /** Where neovide lands on host `p`, with an absolute home. */
  lemma NeovideDestination(p: Platform, home: string)
    requires '%' !in home && home != [] && home[0] == '/'
    ensures Destination(Table.Seeded(p), p, home, Table.BINDINGS[1]) == Some(NeovideLine(p, RStripSlash(home)).path)
  {
    Table.NeovideVerdict(p, home);
    ExpandedStays(home, if p == Windows then "/AppData/Local//neovide" else "/.config/neovide");
  }

  /** Where clangd lands on host `p`, with an absolute home; nowhere on an
      undetected host. */
  lemma ClangdDestination(p: Platform, home: string)
    requires '%' !in home && home != [] && home[0] == '/'
    ensures Destination(Table.Seeded(p), p, home, Table.BINDINGS[2]) ==
      if p == Undetected then None else Some(ClangdLine(p, RStripSlash(home)).path)
  {
    Table.ClangdVerdict(p, home);
    match p
    case Windows => ExpandedStays(home, "/AppData/Local//clangd");
    case MacOS => ExpandedStays(home, "/Library/Preferences/clangd");
    case Linux => ExpandedStays(home, "/.config/clangd");
    case Undetected =>
  }

  /** Three bindings whose destinations are pairwise apart are separated. */
  lemma SeparatedThree(reg: Resolver.Registry, p: Platform, home: string, bs: seq<Binding>, d0: string, d1: string, d2: Option<string>)
    requires |bs| == 3
    requires Destination(reg, p, home, bs[0]) == Some(d0) && Destination(reg, p, home, bs[1]) == Some(d1)
    requires Destination(reg, p, home, bs[2]) == d2
    requires !Within(d0, d1) && !Within(d1, d0)
    requires d2.Some? ==> !Within(d0, d2.value) && !Within(d2.value, d0) && !Within(d1, d2.value) && !Within(d2.value, d1)
    ensures Separated(reg, p, home, bs)
  {
  }

  /** The table's destinations under the stripped home `h` on host `p`,
      pairwise apart. */
  lemma DestinationsApart(p: Platform, h: string)
    ensures var d0 := h + "/.config/ripgreprc";
      var d1 := NeovideLine(p, h).path;
      !Within(d0, d1) && !Within(d1, d0) &&
      (p != Undetected ==>
        var d2 := ClangdLine(p, h).path;
        !Within(d0, d2) && !Within(d2, d0) && !Within(d1, d2) && !Within(d2, d1))
  {
    match p
    case Windows =>
      ApartAfterPrefix(h, "/.config/ripgreprc", "/AppData/Local//neovide", 1);
      ApartAfterPrefix(h, "/.config/ripgreprc", "/AppData/Local//clangd", 1);
      ApartAfterPrefix(h, "/AppData/Local//neovide", "/AppData/Local//clangd", 16);
    case MacOS =>
      ApartAfterPrefix(h, "/.config/ripgreprc", "/.config/neovide", 9);
      ApartAfterPrefix(h, "/.config/ripgreprc", "/Library/Preferences/clangd", 1);
      ApartAfterPrefix(h, "/.config/neovide", "/Library/Preferences/clangd", 1);
    case Linux =>
      ApartAfterPrefix(h, "/.config/ripgreprc", "/.config/neovide", 9);
      ApartAfterPrefix(h, "/.config/ripgreprc", "/.config/clangd", 9);
      ApartAfterPrefix(h, "/.config/neovide", "/.config/clangd", 9);
    case Undetected =>
      ApartAfterPrefix(h, "/.config/ripgreprc", "/.config/neovide", 9);
  }

  /** The table's destinations are separated on every host. */
  lemma TableSeparated(p: Platform, home: string)
    requires '%' !in home && home != [] && home[0] == '/'
    ensures Separated(Table.Seeded(p), p, home, Table.BINDINGS)
  {
    var h := RStripSlash(home);
    RipgreprcDestination(p, home);
    NeovideDestination(p, home);
    ClangdDestination(p, home);
    DestinationsApart(p, h);
    SeparatedThree(Table.Seeded(p), p, home, Table.BINDINGS, h + "/.config/ripgreprc", NeovideLine(p, h).path,
      if p == Undetected then None else Some(ClangdLine(p, h).path));
  }

  /** Running the table in create mode a second time, after a first run
      that did not fail, changes nothing and prints the same lines. */
  lemma TableCreateIdempotent(m: FsMap, p: Platform, home: string, root: string)
    requires '%' !in home && home != [] && home[0] == '/'
    requires Applied(m, Table.Seeded(p), p, home, root, Flags(false, false), Table.BINDINGS).fault.None?
    ensures var once := Applied(m, Table.Seeded(p), p, home, root, Flags(false, false), Table.BINDINGS);
      Applied(once.nodes, Table.Seeded(p), p, home, root, Flags(false, false), Table.BINDINGS) == once
  {
    TableSeparated(p, home);
    CreateRunIdempotent(m, Table.Seeded(p), p, home, root, Table.BINDINGS);
  }

  /** `config` as it runs: prints, or clears the destination, or links it. */
  method Config(fs: FileSystem, flags: Flags, home: string, root: string, name: string, b: Target)
    returns (said: seq<Message>, fault: Option<Fault>)
    modifies fs
    ensures Effect(fs.nodes, said, fault) == Configured(old(fs.nodes), flags, home, root, name, b)
  {
    if b.Ignore? {
      return [Ignoring(name, b.reason)], None;
    }
    var dest := ExpandUser(home, b.path);
    if flags.clean {
      if flags.dryRun {
        return [WillRemove(dest)], None;
      }
      fs.Clear(dest);
      return [], None;
    }
    if flags.dryRun {
      return [WillLink(dest, name)], None;
    }
    fault := fs.MakeSymlink(Join(root, name), dest);
    said := [];
  }

  /** The dispatch `c` with the resolver `res`. */
  method Decide(choice: Choice, p: Platform, res: Resolver.PathResolver, home: string) returns (v: Result<Target>)
    ensures v == Dispatch(choice, p, res.resolvers, home)
  {
    match choice {
      case Direct(t) =>
        v := Ok(t);
      case Rules(rules) =>
        v := Select(rules, p, res, home);
    }
  }

  /** One `_(name) >> choice` statement with the resolver `res`. */
  method Bind(fs: FileSystem, res: Resolver.PathResolver, p: Platform, home: string, root: string, flags: Flags, binding: Binding)
    returns (said: seq<Message>, fault: Option<Fault>)
    modifies fs
    ensures Effect(fs.nodes, said, fault) == Bound(old(fs.nodes), res.resolvers, p, home, root, flags, binding)
  {
    var verdict := Decide(binding.choice, p, res, home);
    if verdict.Err? {
      return [], Some(verdict.fault);
    }
    said, fault := Config(fs, flags, home, root, binding.name, verdict.value);
  }

  /** The run over `bs` from binding `i` on, one step unfolded. */
  lemma AppliedFrom(m: FsMap, reg: Resolver.Registry, p: Platform, home: string, root: string, flags: Flags, bs: seq<Binding>, i: int)
    requires 0 <= i < |bs|
    ensures var e := Bound(m, reg, p, home, root, flags, bs[i]);
      Applied(m, reg, p, home, root, flags, bs[i..]) ==
        if e.fault.Some? then e else After(e.said, Applied(e.nodes, reg, p, home, root, flags, bs[i + 1..]))
  {
    assert bs[i..][0] == bs[i] && bs[i..][1..] == bs[i + 1..];
  }

  /** How the printed lines of a finished step join those before it. */
  lemma Advance(said: seq<Message>, e: Effect, tail: Effect, whole: Effect)
    requires After(said, if e.fault.Some? then e else After(e.said, tail)) == whole
    ensures e.fault.Some? ==> whole == Effect(e.nodes, said + e.said, e.fault)
    ensures e.fault.None? ==> After(said + e.said, tail) == whole
  {
    assert said + (e.said + tail.said) == (said + e.said) + tail.said;
  }

  /** The three `_(name) >> ...` statements of `apply`, run in order. */
  method ApplyAll(fs: FileSystem, res: Resolver.PathResolver, p: Platform, home: string, root: string, flags: Flags, bs: seq<Binding>)
    returns (said: seq<Message>, fault: Option<Fault>)
    modifies fs
    ensures Effect(fs.nodes, said, fault) == Applied(old(fs.nodes), res.resolvers, p, home, root, flags, bs)
  {
    said := [];
    ghost var reg := res.resolvers;
    ghost var whole := Applied(fs.nodes, reg, p, home, root, flags, bs);
    var i := 0;
    while i < |bs|
      invariant 0 <= i <= |bs| && res.resolvers == reg
      invariant After(said, Applied(fs.nodes, reg, p, home, root, flags, bs[i..])) == whole
      decreases |bs| - i
    {
      ghost var e := Bound(fs.nodes, reg, p, home, root, flags, bs[i]);
      AppliedFrom(fs.nodes, reg, p, home, root, flags, bs, i);
      var step, failure := Bind(fs, res, p, home, root, flags, bs[i]);
      Advance(said, e, Applied(fs.nodes, reg, p, home, root, flags, bs[i + 1..]), whole);
      if failure.Some? {
        return said + step, failure;
      }
      said := said + step;
      i := i + 1;
    }
    assert bs[i..] == [];
    assert said + [] == said;
    fault := None;
  }

  /** `main` after parsing its arguments, on the host `p`. */
  method Execute(fs: FileSystem, p: Platform, home: string, root: string, flags: Flags)
    returns (said: seq<Message>, fault: Option<Fault>)
    modifies fs
    ensures Effect(fs.nodes, said, fault) == Applied(old(fs.nodes), Table.Seeded(p), p, home, root, flags, Table.BINDINGS)
  {
    var res := Table.NewResolver(p);
    said, fault := ApplyAll(fs, res, p, home, root, flags, Table.BINDINGS);
  }
}
