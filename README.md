# Config: path resolution and symlink synchronisation, modelled in Dafny

`apply.py` links configuration files from a managed source tree to each
platform's expected location. This project models the script's core:

- `PathResolver` stores named resolvers and replaces `%Name%` tokens in path patterns after `~` expansion.
- The rule language `win`/`mac`/`lin`/`any >> pattern` has priorities 100 or 10. The selector `r` keeps the first rule with the highest priority that matches the host.
- The dispatch `_`/`c` hands each binding's verdict to `config`.
- The binding table covers ripgreprc, neovide and clangd.
- `main` seeds the registry for the host.
- `config` runs in create, clean and dry-run modes.
- `make_symlink` clears the destination and then links it.

The `Ignore` class (apply.py:49-57) is the variant `Rules.Target.Ignore(reason)`. `IGNORE` and `Ignore()` have the reason `""`.

Modules, one per part of the script:

- `Faults`: the exceptions that end a run, as the variants of `Fault`, plus `Result` and `Option`.
- `OsPath`: POSIX `os.path.expanduser` and `os.path.join`, and "inside a directory", the set of paths `rmtree` removes.
- `Resolver`:
  - the registry as `map<string, Entry>`;
  - the scanning loop of `resolve` as the spec functions `Scan`/`Lookup`;
  - an independent reference, a `Piece` grammar with `Template`/`Render`/`Substitute`, against which the scan is proved;
  - the class `PathResolver`, whose `Resolve` is a `while` loop proved equal to the spec.
- `Rules`:
  - scopes, thunks and priorities;
  - the selection fold `Chosen` and its characterisation as the unique winner (`IsWinner`);
  - the verdict of `r` and the dispatch `c`;
  - the loop `Pick`.
- `Table`: the three bindings, the seeded registry, and what each binding resolves to on every host.
- `Sync`:
  - the filesystem as `map<string, Node>`, where a node is a file, a directory, a link or something else (a FIFO, say);
  - `Removed`, the unlink/`rmtree` branches, and `Linking`, `make_symlink`;
  - the class `FileSystem`, whose methods update that map.
- `Apply`:
  - `config` as the function `Configured` and the method `Config`;
  - one binding as `Bound`/`Bind`;
  - the whole run as `Applied`/`ApplyAll`;
  - `main` after argument parsing, as `Execute`.

Modelling choices:

- **The host.** The host is a `Platform` value. It stands for the flags of apply.py:11-13, or for `--sys` at apply.py:144-148. At most one flag is ever set.
- **Home and script directory.** The home directory (`$HOME`) and the directory of the script (`os.path.dirname(__file__)`) are parameters.
- **Printed lines.** Lines the script would print are returned as `Message` values.
- **Registry recursion.** Resolving a token may recurse through the registry, because a string entry is resolved again on every lookup. The model tracks the set of entries under resolution. Meeting one of them again is the fault `Cyclic`: the script would recurse until Python raises `RecursionError`.

What the script does, which its purpose might not suggest:

- **Faults stop the whole run.** Any exception ends the run, and what was done before it stays done (`Applied`, `AppliedAppend`). Examples: an unknown token (`KeyError`), an unclosed `%` (`assert`), a failed `os.symlink`. A fault does not stay local to one artifact.
- **Directories are not mirrored.** A directory source is linked as a single symlink, not mirrored entry by entry.
- **No parent directories are created.**
- **Absolute destinations are not asserted.** A relative pattern reaches `config` as it is.
- **Double slash on Windows.** On Windows the seeded entry `LocalAppData` ends in `/`. So `%LocalAppData%/neovide` resolves to `<home>/AppData/Local//neovide`, with two slashes (`Table.NeovideVerdict`, `Table.ClangdVerdict`).
- **Plain strings are not resolved.** A plain string binding such as ripgreprc bypasses `r` and token resolution. Only the `~` expansion in `config` applies to it (`Table.RipgreprcVerdict`, `Apply.DryRipgreprc`).
- **A missing source is not detected.** `os.symlink` (apply.py:66) creates a dangling link when the managed file does not exist, and `Sync.Linking` never looks at its target.
- **A `%` in `$HOME` is scanned as a delimiter.** `resolve` expands `~` before it scans for tokens (apply.py:33-35). So with `HOME=/h/50%off` the pattern `~/.config/neovide` fails with the `assert`. This is why `Resolver.NoTokenUnchanged`, `Table.NeovideVerdict` and `Apply.DryRunReport` require `'%' !in home`.

## Model

| member | source | states |
|---|---|---|
| OsPath.RStripSlash | apply.py:33 | the home directory with its trailing `/` removed: a prefix of the input, not ending in `/`, with only `/` cut off |
| OsPath.ExpandUser | apply.py:33 | defines POSIX `os.path.expanduser`: `~` or `~/...` becomes the stripped home followed by the rest (`/` if that is empty), anything else is unchanged; characterised by `ExpandUserChars`, `ExpandUserIdentity` and `Table.HomeRelative` |
| OsPath.Join | apply.py:180 | defines `os.path.join(root, name)`: an absolute name replaces the root, otherwise one `/` separates them; characterised by `JoinPlacesUnderRoot` |
| OsPath.ExpandUserChars | apply.py:33 | `~` expansion introduces no character found in neither the home directory nor the pattern, so it adds no `%` token |
| OsPath.ExpandUserIdentity | apply.py:33 | a pattern not starting with `~` is left untouched by expansion |
| OsPath.JoinPlacesUnderRoot | apply.py:180 | joining onto the script directory: an absolute name stays as it is, a relative name lands strictly inside the directory |
| OsPath.ApartAfterPrefix | apply.py:173-174 | two paths under one prefix whose remainders differ at a common position are distinct, and neither lies inside the other, so `rmtree` of one leaves the other |
| Resolver.Find | apply.py:41 | `str.find`: -1 exactly when the character is absent, otherwise the index of its first occurrence |
| Resolver.Scan | apply.py:35-45 | the scan fails only with an unclosed `%`, an unknown token or a cyclic entry |
| Resolver.Lookup | apply.py:22-23 | looking up a token fails only with the same three faults |
| Resolver.Resolved | apply.py:31-46 | defines `resolve(pat)`: the scan of the expanded pattern with no entry under resolution; characterised by `ScanIsSubstitution`, `NoTokenUnchanged`, `UnclosedNeverResolves` and the `Added…Resolves` lemmas |
| Resolver.TemplateRender | apply.py:35-45 | a pattern with every `%` closed splits into well-formed literals and tokens that spell it back |
| Resolver.RenderTemplate | apply.py:35-45 | well-formed pieces written out split back into the same pieces, so the split is a bijection |
| Resolver.ScanIsSubstitution | apply.py:35-45 | on a well-formed pattern, `resolve` is exactly: copy each literal, replace each token by its entry's result, first fault wins |
| Resolver.UnclosedNeverResolves | apply.py:40-42 | a pattern with an unclosed `%` never resolves, whatever the registry holds |
| Resolver.UnclosedIffOdd | apply.py:40-42 | a pattern has an unclosed `%` exactly when it holds an odd number of `%` |
| Resolver.LiteralsCopied | apply.py:36-38 | characters other than `%` are copied to the result in order |
| Resolver.TokenReplaced | apply.py:39-45 | a `%name%` block is replaced by the entry's result, or the entry's fault ends the scan, and scanning resumes after the closing `%` |
| Resolver.NoTokenUnchanged | apply.py:31-46 | a pattern with no `%` resolves to its `~` expansion |
| Resolver.UnclosedFault | apply.py:41-42 | a `%` with no later `%` fails naming the pattern as it was passed in, before expansion |
| Resolver.UnknownFault | apply.py:22-23 | a token with no entry is a `KeyError` fault; there is no default |
| Resolver.AddedPatternResolves | apply.py:25-27 | after `add(name, s)` with a string `s`, `%name%` resolves exactly as `s` does, with `name` now under resolution |
| Resolver.AddedConstantResolves | apply.py:28-29 | after `add(name, f)` with a callable, `%name%` resolves to the value `f` returns |
| Resolver.PathResolver.constructor | apply.py:19-20 | a new resolver has no entries |
| Resolver.PathResolver.Add | apply.py:25-29 | `add` sets the entry for `name`, replacing an earlier one, and changes no other entry |
| Resolver.PathResolver.Resolve | apply.py:31-46 | the loop of `resolve` computes the spec function `Resolved` |
| Resolver.PathResolver.ResolveWithin | apply.py:31-46 | the loop, entered while some entries are under resolution, computes `Scan` on the expanded pattern |
| Resolver.PathResolver.Call | apply.py:22-23 | `__resolve` computes `Lookup` |
| Rules.ScopeMatching | apply.py:107-110 | an OS scope matches only on its own host, with priority 100; `any` matches everywhere, with priority 10 |
| Rules.Priority | apply.py:107-110 | defines the left value of each scope's `RArrow`: 100 for `win`, `mac` and `lin`, 10 for `any`; `ScopeMatching` states the values |
| Rules.Thunk | apply.py:107-110 | defines the thunk each scope builds: `None` off its host, otherwise `ConfigPath(target, Priority(scope))`, and always for `any`; characterised by `ScopeMatching` |
| Rules.Step | apply.py:88-92 | defines one iteration of the loop of `r`: the first match is taken, a later one only with strictly greater priority; characterised by `StepAfterWinner` |
| Rules.Chosen | apply.py:85-92 | defines `cur` after the loop, as a fold of `Step` over the rules; characterised by `ChosenIsWinner` |
| Rules.WinnerUnique | apply.py:86-92 | at most one rule is the winner |
| Rules.WinnerKept | apply.py:91-92 | a later rule with priority no higher leaves the winner in place |
| Rules.WinnerTaken | apply.py:89-92 | a matching rule that beats every earlier match becomes the winner |
| Rules.StepAfterWinner | apply.py:88-92 | one iteration keeps the winner or hands the win to the new rule |
| Rules.ChosenIsWinner | apply.py:85-92 | the loop of `r` keeps nothing exactly when no rule matches; otherwise it keeps the first rule of highest priority |
| Rules.VerdictOfWinner | apply.py:93-97 | `r` returns `Ignore()` when nothing matches; otherwise it returns the winner's `Ignore` unchanged, or the winner's pattern resolved |
| Rules.Settle | apply.py:94-96 | defines what `r` returns for the winning path: an `Ignore` as it is, a pattern resolved; used through `VerdictOfWinner` |
| Rules.Verdict | apply.py:84-97 | defines `r(*rules)`: `Ignore()` without a match, otherwise the winner settled; characterised by `VerdictOfWinner` |
| Rules.Dispatch | apply.py:99-103 | a non-tuple right operand reaches `config` unresolved; a failing dispatch fails only with a resolution fault |
| Rules.Pick | apply.py:85-92 | the `for` loop of `r` computes `Chosen` |
| Rules.Select | apply.py:84-97 | `r(*rules)` computes `Verdict` |
| Table.NewResolver | apply.py:150-156 | `main` seeds `LocalAppData` and `RoamingAppData` on Windows, `LibraryPreferences` on macOS, and nothing elsewhere |
| Table.BINDINGS | apply.py:112-120 | the three `_(name) >> ...` statements in order: ripgreprc as a plain string, neovide and clangd as rule tuples; their outcomes are stated by `RipgreprcVerdict`, `NeovideVerdict`, `ClangdVerdict` and `Apply.DryRunReport` |
| Table.Seeded | apply.py:150-156 | the registry `main` builds per host; `NewResolver` is proved to produce it |
| Table.HomeRelativeResolves | apply.py:31-46 | `~/rest` with no `%` resolves to the home directory then `rest` |
| Table.TokenThenLiteral | apply.py:39-45 | `%token%rest` with a home-relative entry resolves to the home directory, the entry, then `rest` |
| Table.NeovideChosen | apply.py:114 | the neovide rules pick `win` on Windows and `any` on every other host |
| Table.ClangdChosen | apply.py:116-120 | the clangd rules pick each OS's own rule, and nothing on an undetected host |
| Table.RipgreprcVerdict | apply.py:112 | ripgreprc is passed on as its plain pattern without resolution |
| Table.NeovideVerdict | apply.py:114 | neovide's destination on each host, with the Windows double slash |
| Table.ClangdVerdict | apply.py:116-120 | clangd's destination on each OS and `Ignore()` on an undetected host |
| Sync.Removed | apply.py:170-174 | clearing a path: a link or file is unlinked; a directory goes with everything inside it; anything else stays; nothing outside the path changes |
| Sync.Linking | apply.py:60-66 | `make_symlink` fails with `FileExistsError` exactly when an uncleared node is in the way; otherwise the path becomes a link to the target and nothing outside it changes |
| Sync.RemoveIdempotent | apply.py:170-174 | clearing twice is clearing once |
| Sync.LinkIdempotent | apply.py:60-66 | linking again to the same target changes nothing |
| Sync.LinkInPlace | apply.py:60-66 | linking a path that already holds the same link leaves the filesystem as it was |
| Sync.CleanAfterLink | apply.py:60-66 | cleaning after a link leaves what cleaning alone would, and the destination is gone |
| Sync.LinkAfterClean | apply.py:60-66 | linking after a clean gives the same state as linking alone |
| Sync.FileSystem.Clear | apply.py:61-65 | the `lexists`/`islink`/`isfile`/`isdir` branches compute `Removed` |
| Sync.FileSystem.MakeSymlink | apply.py:60-66 | `make_symlink` computes `Linking`; on failure every path is as it was |
| Apply.Configured | apply.py:158-181 | `config`: an `Ignore` prints `Ignoring` and changes nothing; a dry run prints `Will remove`/`Will link` for the expanded destination and changes nothing; a real run prints nothing |
| Apply.Text | apply.py:161-178 | defines the printed form of each message: `Ignoring a` or `Ignoring a: reason`, `Will remove b`, `Will link b -> a`; characterised by `WillLinkText` and `DryRunText` |
| Apply.WillLinkText | apply.py:178 | `print("Will link", b, "->", a)` prints the three parts separated by single spaces |
| Apply.Bound | apply.py:99-105 | defines one `_(name) >> choice` statement: a resolution fault ends it, otherwise `config` runs on the verdict; `Bind` is proved to compute it |
| Apply.Applied | apply.py:112-120 | defines the whole run: the bindings in order, the first fault ending it with earlier effects kept; characterised by `AppliedAppend`, `QuietRuns` and `DryRunReport` |
| Apply.ConfiguredEffects | apply.py:166-181 | without `--dry-run`, clean mode clears the destination and cannot fail; create mode links it to `root/name` and fails, with nothing changed, only on an uncleared node |
| Apply.AppliedAppend | apply.py:112-120 | a run over two lists of bindings is the first run resumed with the second; a fault in the first means the second is never looked at |
| Apply.QuietRuns | apply.py:166-178 | a dry run leaves the filesystem unchanged, and neither a dry run nor a clean run can fail on the filesystem |
| Apply.ConfigIdempotent | apply.py:158-181 | repeating a successful step has the effect of running it once |
| Apply.CreateThenClean | apply.py:166-181 | create and then clean for the same binding leaves the destination absent, as clean alone would |
| Apply.ExpandedStays | apply.py:165 | a resolved path under an absolute home is not expanded a second time by `config` |
| Apply.ThreeQuietSteps | apply.py:112-120 | three steps that each print one line and change nothing make a run printing those three lines |
| Apply.DryRipgreprc | apply.py:112 | a dry run prints `Will link <home>/.config/ripgreprc -> ripgreprc` |
| Apply.DryNeovide | apply.py:114 | a dry run prints the neovide line for the host |
| Apply.DryClangd | apply.py:116-120 | a dry run prints the clangd line for the host, or `Ignoring clangd` on an undetected host |
| Apply.DryRunReport | apply.py:112-120 | a dry run of the whole table prints exactly one line per binding, in table order, changes nothing and does not fail |
| Apply.DryRunText | apply.py:161-178 | the dry-run lines print as `Will link <home>/.config/ripgreprc -> ripgreprc`, the neovide line for the host, and `Ignoring clangd` on an undetected host |
| Apply.StepKeepsOutside | apply.py:158-181 | one step leaves every path outside its destination as it was, in every mode |
| Apply.OutsideKept | apply.py:112-120 | a run leaves every path outside all of its destinations as it was, in every mode, even when a fault ends it |
| Apply.LinksHeld | apply.py:112-120 | after a create run that did not fail, over separated destinations, every destination holds the link to its file under the script directory |
| Apply.StepOverLink | apply.py:176-181 | a create step whose destination already holds its link changes nothing and prints what it printed the first time |
| Apply.RerunOverLinks | apply.py:112-120 | a create run over a filesystem where every destination already holds its link changes nothing, does not fail, and prints the first run's lines |
| Apply.CreateRunIdempotent | apply.py:112-120 | running create mode a second time after a run that did not fail gives the same filesystem, the same lines and no fault, whenever no destination is another's or lies inside another's |
| Apply.RipgreprcDestination | apply.py:112 | ripgreprc lands at `<home>/.config/ripgreprc` |
| Apply.NeovideDestination | apply.py:114 | neovide lands at the path of its dry-run line on each host |
| Apply.ClangdDestination | apply.py:116-120 | clangd lands at the path of its dry-run line on each OS, and nowhere on an undetected host |
| Apply.SeparatedThree | apply.py:112-120 | three bindings whose destinations are pairwise apart are separated |
| Apply.DestinationsApart | apply.py:112-120 | the table's destinations under the same home are pairwise apart on every host |
| Apply.TableSeparated | apply.py:112-120 | the table's destinations are separated on every host with an absolute home free of `%` |
| Apply.TableCreateIdempotent | apply.py:112-120 | running the table in create mode a second time, after a run that did not fail, changes nothing, prints the same lines and does not fail |
| Apply.Config | apply.py:158-181 | the callback computes `Configured` |
| Apply.Decide | apply.py:100-103 | `c` computes `Dispatch` |
| Apply.Bind | apply.py:99-105 | `_(name) >> choice` computes `Bound` |
| Apply.AppliedFrom | apply.py:112-120 | the run from binding `i` on is that binding's step followed by the rest, unless the step failed |
| Apply.Advance | apply.py:112-120 | the printed lines of a step follow those printed before it |
| Apply.ApplyAll | apply.py:112-120 | the bindings run in order compute `Applied` |
| Apply.Execute | apply.py:150-183 | `main` with a seeded resolver over the three bindings computes `Applied` on `Seeded(p)` |

## Left out

- Argument parsing, `print` and `platform.system()`: the flags and the host are inputs, and printed lines are returned as values.
- `os.path.expanduser` of `~user`: the model leaves such a pattern unchanged, because user databases are outside the model. Windows (`ntpath`) expansion via `USERPROFILE` is not modelled; expansion follows the POSIX rules everywhere.
- Windows path semantics in general: paths are strings with `/` as the only separator.
- Path normalisation: `a//b` and `a/b` are different keys in the model, though the OS treats them as one entry.
- An empty destination: the model treats `""` as an ordinary key, while the script would `rmtree` the working directory in clean mode (`Path("")` is `.`) and `os.symlink` would raise in create mode. The binding table never produces an empty destination.
- Symlink resolution inside paths: a path through a linked directory is not followed, because the filesystem is a flat map from path strings to nodes.
- The filesystem's tree shape: the model does not require a path's parent to exist or to be a directory. So `os.symlink` failing with `FileNotFoundError` or `NotADirectoryError` for a missing or non-directory parent is not modelled.
- `target_is_directory`: the flag only affects Windows, and the model's links carry no kind.
- Other `os.symlink`, `os.remove` and `shutil.rmtree` failures (permissions, I/O errors, races with other processes): only "something is still in the way" is modelled.
- Python's recursion-depth limit: a cyclic registry entry is the fault `Cyclic` as soon as it is re-entered.
- Callable resolvers: one is represented by the value it returns. The call's side effects and its return type are not modelled.
- `assert` statements are taken as enabled (no `python -O`).
- Resolver.Scan: its contract lists only the kinds of fault. What it computes is stated by `ScanIsSubstitution`, `UnclosedNeverResolves` and the other lemmas beside it.
- The `RArrow` helper class (apply.py:69-78): it contributes only the `>>` syntax, which the `Rule`, `Choice` and `Binding` values stand for.
- Whole-run idempotence of create mode when two destinations coincide or one lies inside another: then a later step can remove an earlier link, so it is not proved. `Apply.CreateRunIdempotent` proves it for separated destinations, and `Apply.TableCreateIdempotent` for the table on every host.
