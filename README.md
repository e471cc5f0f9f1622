# nmk launcher and installer, modelled in Dafny

nmk is a set of dotfiles plus the programs that install and start them:

- `nmkup` downloads and installs the `nmk` entrypoint binary and a bundle of
  vendor binaries;
- `nmk` prepares the shell environment, renders a tmux configuration and
  starts tmux or a login shell;
- `build.py` builds and packages both binaries.

This project models the decision and text-generation logic of these programs
and proves properties about it. The pieces modelled are:

- the staleness check of the installed entrypoint;
- the choice of vendor bundle;
- the tmux configuration renderer;
- the pure helpers of the build script;
- the environment set-up in three generations of the launcher. These are
  `nmk/src/bin/nmk/entrypoint.rs` (current), `nmkup/src/nmk.rs` and
  `nmk.rs/src/nmk.rs` (oldest).

Some things are inputs or given functions rather than modelled code:

- Everything outside these programs: remote object metadata, directory
  listings, whether a path exists, whether a program is on the search path,
  the terminal input and the tmux version.
- The process environment is a `map<string, string>` held by an
  `Environment` object. Its `Set` and `Remove` stand for `set_env` and
  `env::remove_var`.
- The `PathVec` operations are given functions. These are parsing a
  search-path value, `unique` plus dropping version-manager entries, and
  joining.

Files and modules:

| file | module | models |
|---|---|---|
| common.dfy | Common | `Option`/`Result`, string helpers, decimal printing and `usize` parsing, `str::trim` |
| object_store.dfy | ObjectStore | remote object metadata and error kinds |
| nmkup_entrypoint.dfy | NmkupEntrypoint | `nmk/src/bin/nmkup/entrypoint.rs` |
| nmkup_vendor.dfy | NmkupVendor | `nmk/src/bin/nmkup/vendor.rs` |
| tmux_config.dfy | TmuxConfig | `nmk/src/nmk/tmux/config.rs` |
| build_script.dfy | BuildScript | `nmk/build.py` |
| shell_env.dfy | ShellEnv | the environment object and the updates the launchers share |
| nmk_entrypoint.dfy | NmkEntrypoint | `nmk/src/bin/nmk/entrypoint.rs` |
| nmkup_env.dfy | NmkupEnv | `nmkup/src/nmk.rs`, and the parts of `nmk.rs/src/nmk.rs` that are identical to it |
| legacy_env.dfy | LegacyEnv | the editor choice of `nmk.rs/src/nmk.rs`, the one place where it differs |
| generations.dfy | Generations | where the launcher generations agree and where they differ |

The tmux renderer streams lines into a writer and stops at the first failed
write. It is modelled that way:

- each `write!`/`writeln!` call is one `Line` value;
- a `Writer` object records the calls it accepted, and the one call number
  that fails;
- every rendering method is proved against a specification function that
  lists its lines;
- `Emit` states what the writer holds after early exit.

The oldest launcher, `nmk.rs/src/nmk.rs`, has the same code as
`nmkup/src/nmk.rs` for four functions, so the `NmkupEnv` members model both
files:

- `setup_environment` (lines 18-35) is `NmkupEnv.SetupEnvironment`;
- `setup_path` (lines 48-60) is `NmkupEnv.SetupPath`;
- `setup_ld_library_path` (lines 62-78) is `NmkupEnv.SetupLdLibraryPath`;
- `dir` (lines 80-92) is `NmkupEnv.NmkDir`, with `NmkupEnv.NmkDirSpec`.

Only its editor choice differs; `LegacyEnv` models that.

## Model

| member | source | states |
|---|---|---|
| NmkupEntrypoint.IsEntrypointUp2Date | nmk/src/bin/nmkup/entrypoint.rs:59-72 | a missing entrypoint binary is never up to date; a missing cached metadata file is never up to date; up to date implies the cached generation equals the remote one (equality, no ordering) |
| NmkupEntrypoint.BranchAgreesWithTable | nmk/src/bin/nmkup/entrypoint.rs:44-56 | the branch of `install_or_update` answers "up to date" exactly in the up-to-date row of the decision table, and `force` always leads to an install even when generations match |
| NmkupEntrypoint.NmkHome.InstallOrUpdate | nmk/src/bin/nmkup/entrypoint.rs:29-57 | an unsupported architecture or a metadata fetch error is returned and changes nothing; `Up2Date` exactly when not forced and up to date, and then nothing is downloaded, installed or written; otherwise `Installed` exactly when the download and the install both succeed, after downloading, installing the binary and then writing the metadata, in that order; a failed download returns the download's error and a failed install the install's error, both after only the download attempt, with no metadata written; after success the check reports up to date |
| NmkupVendor.ArchiveObjects | nmk/src/bin/nmkup/vendor.rs:19-23 | keeps exactly the listed objects whose name ends in `.tar.xz`, in their original order and with their multiplicities |
| NmkupVendor.FilterByOsRelease | nmk/src/bin/nmkup/vendor.rs:47-63 | an unresolved OS returns the input unchanged; a known OS keeps exactly the objects whose name contains `amazon`/`centos`/`debian`/`ubuntu`, in order |
| NmkupVendor.DisplayName | nmk/src/bin/nmkup/vendor.rs:65-70 | the last `/`-separated segment of an object name; stated by `DisplayNameIsLastSegment` and `DisplayWholeName` |
| NmkupVendor.DisplayNameIsLastSegment | nmk/src/bin/nmkup/vendor.rs:65-70 | the display name is a suffix of the object name that contains no `/` and is preceded by a `/` whenever it is shorter than the name |
| NmkupVendor.DisplayWholeName | nmk/src/bin/nmkup/vendor.rs:65-70 | a name without `/` is displayed whole |
| NmkupVendor.GetDisplayNames | nmk/src/bin/nmkup/vendor.rs:65-70 | exactly one display name per object, in order |
| NmkupVendor.Judge | nmk/src/bin/nmkup/vendor.rs:104-110 | an accepted line always names an index in `1..=n` |
| NmkupVendor.NumberedChoice | nmk/src/bin/nmkup/vendor.rs:106-108 | a line holding the decimal `k` followed by a newline is accepted exactly when `1 <= k <= n` |
| NmkupVendor.NonNumericRejected | nmk/src/bin/nmkup/vendor.rs:106-111 | a line whose trimmed text starts with neither a digit nor `+` is rejected |
| NmkupVendor.SelectVendorFiles | nmk/src/bin/nmkup/vendor.rs:85-115 | an empty list is the failed assertion; otherwise the result is the object at the first accepted line's index, judged on that line alone, and it is always an element of the list |
| NmkupVendor.FirstAcceptedWins | nmk/src/bin/nmkup/vendor.rs:92-114 | when lines before `k` are all rejected and line `k` is accepted with choice `c`, the selection is `objects[c-1]`, made after `k+1` prompts |
| NmkupVendor.ScriptedSession | nmk/src/bin/nmkup/vendor.rs:104-113 | with three objects and input `abc`, `5`, `0`, `2`, the second object is picked on the fourth prompt |
| NmkupVendor.VendorDir.RemoveDirContents | nmk/src/bin/nmkup/vendor.rs:72-83 | succeeds exactly when no entry fails to be removed, and then the directory is empty; otherwise it stops at the first failing entry, which is still there, and the entries before it are gone |
| NmkupVendor.Candidates | nmk/src/bin/nmkup/vendor.rs:19-26 | the `.tar.xz` objects of the listing, OS-filtered unless `no_filter`; stated by `ArchiveObjects` and `FilterByOsRelease` |
| NmkupVendor.VendorDir.DownloadAndUnpack | nmk/src/bin/nmkup/vendor.rs:28-44 | a download error is returned and changes nothing; a failed creation of a missing directory is an I/O error and changes nothing; a failed removal is an I/O error that leaves the entries from the failing one on; otherwise the directory exists and holds exactly the unpacked entries, and the chosen object is returned exactly when unpacking finishes |
| NmkupVendor.VendorDir.Install | nmk/src/bin/nmkup/vendor.rs:17-45 | a listing error is returned and changes nothing; the picked bundle is one of the `.tar.xz` candidates, OS-filtered unless `no_filter`, and is the one the scripted input selects; no candidates means the selection assertion fails, and input with no accepted line means the prompt never returns, both changing nothing; after a selection: a download error is returned and changes nothing; a failed directory creation is an I/O error and changes nothing; a failed removal is an I/O error that leaves the entries from the failing one on; otherwise the directory exists and holds exactly the unpacked entries, and the result is the picked bundle exactly when unpacking succeeds |
| NmkupVendor.SelectionDeterministic | nmk/src/bin/nmkup/vendor.rs:92-114 | the prompt loop admits one outcome only for a given input |
| TmuxConfig.ChooseTree | nmk/src/nmk/tmux/config.rs:149-158 | the `choose-tree` command for a tmux version; its flags are stated by `ChooseTreeFlags` |
| TmuxConfig.ChooseTreeFlags | nmk/src/nmk/tmux/config.rs:149-158 | `choose-tree`, then ` -s` exactly from 2.6 on, then ` -Z` exactly from 2.7 on |
| TmuxConfig.Center | nmk/src/nmk/tmux/config.rs:120-128 | the `{:-^100}` format: the label centred in a field of dashes, the odd dash going right; stated by `CenterShape` |
| TmuxConfig.Banner | nmk/src/nmk/tmux/config.rs:120-128 | a section's start or end line; stated by `BannerLayout` |
| TmuxConfig.CenterShape | nmk/src/nmk/tmux/config.rs:120-128 | centring pads with `p/2` fill characters on the left and `p - p/2` on the right where `p` is the width minus the label length, and leaves a label at least as wide as the field unpadded |
| TmuxConfig.BannerLayout | nmk/src/nmk/tmux/config.rs:120-128 | a banner is `# `, `p/2` dashes, the label, `p - p/2` dashes and a newline, 103 characters in all |
| TmuxConfig.Config | nmk/src/nmk/tmux/config.rs:20-89 | the text of the whole configuration for a version, as `Render` writes it when no write fails |
| TmuxConfig.ConfigStartsWithHeader | nmk/src/nmk/tmux/config.rs:20-21 | the first line is `# tmux <version> configuration` |
| TmuxConfig.RunShape | nmk/src/nmk/tmux/config.rs:39-41 | a counted loop from `lo` to `hi` writes `hi - lo + 1` lines, line `i` being number `lo + i` |
| TmuxConfig.PairLinesShape | nmk/src/nmk/tmux/config.rs:138-141 | each key gets its unbind line immediately followed by its bind line, keys in order, two lines per key |
| TmuxConfig.UnsetLinesShape | nmk/src/nmk/tmux/config.rs:194-196 | one `set-environment -gr` line per variable, in order |
| TmuxConfig.FunctionKeyShape | nmk/src/nmk/tmux/config.rs:31-43 | 19 lines: seven fixed bindings (the sixth being `choose-tree`), then exactly the 12 `S-F<n>` lines for n = 1..12 in order |
| TmuxConfig.F12TableShape | nmk/src/nmk/tmux/config.rs:44-56 | in table F12, F1..F11 send themselves, F12 detaches, and digits 1..9 select windows 1..9 |
| TmuxConfig.PanePathShape | nmk/src/nmk/tmux/config.rs:130-147 | each of the five pane-path keys gets an unbind line immediately followed by a bind line that keeps the current path, then the new-session prompt |
| TmuxConfig.UnsetEnvShape | nmk/src/nmk/tmux/config.rs:186-198 | exactly the five `NMK_TMUX_*` variables are unset, in the listed order |
| TmuxConfig.Emit | nmk/src/nmk/tmux/config.rs:20-89 | the writer's state after a sequence of calls joined with `?`; stated by `EmitClosedForm` and `EmitAppend` |
| TmuxConfig.EmitClosedForm | nmk/src/nmk/tmux/config.rs:20-89 | early exit on error: writing fails exactly when one of its calls fails; the failing call writes nothing and no further call is made; otherwise every line is written |
| TmuxConfig.EmitAppend | nmk/src/nmk/tmux/config.rs:111-118 | writing `a` then `b` is writing `a + b`, and `b` is never reached after a failure in `a` |
| TmuxConfig.Writer.Write | nmk/src/nmk/tmux/config.rs:20-21 | one formatting call: it counts the call and appends the line exactly when this is not the failing call |
| TmuxConfig.WriteLoop | nmk/src/nmk/tmux/config.rs:39-41 | writes the lines of a counted loop with early exit |
| TmuxConfig.WritePairs | nmk/src/nmk/tmux/config.rs:138-141 | writes unbind/bind pairs with early exit |
| TmuxConfig.PaneCurrentPath | nmk/src/nmk/tmux/config.rs:130-147 | writes the pane-path lines with early exit |
| TmuxConfig.HalfPageUpPageDown | nmk/src/nmk/tmux/config.rs:173-184 | writes the `PageUp`/`PageDown` copy-mode pairs with early exit |
| TmuxConfig.UnsetTmuxEnvs | nmk/src/nmk/tmux/config.rs:186-198 | writes the five unset lines with early exit |
| TmuxConfig.WritePrefixKeys | nmk/src/nmk/tmux/config.rs:23-27 | writes the prefix-key lines with early exit |
| TmuxConfig.WriteMiscKeys | nmk/src/nmk/tmux/config.rs:28-30 | writes the three bindings between the prefix and function-key sections with early exit |
| TmuxConfig.WriteNavigationKeys | nmk/src/nmk/tmux/config.rs:32-36 | writes the F1-F5 bindings with early exit |
| TmuxConfig.WriteFunctionKeys | nmk/src/nmk/tmux/config.rs:31-43 | writes the function-key body with early exit |
| TmuxConfig.WriteF12Table | nmk/src/nmk/tmux/config.rs:44-56 | writes the F12 table body with early exit |
| TmuxConfig.CopyToSystemClipboard | nmk/src/nmk/tmux/config.rs:160-171 | writes the `xclip` binding with early exit |
| TmuxConfig.WriteCopyMode | nmk/src/nmk/tmux/config.rs:58-85 | writes the copy-mode body, including the wheel binding as two calls, with early exit |
| TmuxConfig.WriteBody | nmk/src/nmk/tmux/config.rs:22-88 | writes the body of any section with early exit |
| TmuxConfig.Section | nmk/src/nmk/tmux/config.rs:111-118 | start banner, then body, then end banner, stopping at the first failure |
| TmuxConfig.RenderHead | nmk/src/nmk/tmux/config.rs:20-30 | writes the header, the options and prefix sections and the misc bindings with early exit |
| TmuxConfig.RenderKeys | nmk/src/nmk/tmux/config.rs:31-57 | writes the function-key, F12 and pane-path sections with early exit |
| TmuxConfig.RenderTail | nmk/src/nmk/tmux/config.rs:58-88 | writes the copy-mode section, the colour line and the unset section with early exit |
| TmuxConfig.Render | nmk/src/nmk/tmux/config.rs:20-89 | writes the whole configuration for the version with early exit; with no failure the writer holds every line, so its text is the configuration |
| BuildScript.SkipSpaces | nmk/build.py:119 | the `\s*` step: the end index is the first non-space at or after the start |
| BuildScript.LineEnd | nmk/build.py:119 | the extent of `.` in the regex: the index of the first newline or the end |
| BuildScript.LastQuote | nmk/build.py:119 | the last `"` before the line end, or none |
| BuildScript.VersionLineMatches | nmk/build.py:119 | round trip: every line `version<ws>=<ws>"<value>"<rest>` matches and captures `value`, if `value` has no newline and `rest` has no quote before its line end |
| BuildScript.MatchVersionLine | nmk/build.py:119 | the regex `^version\s*=\s*"(.*)"` applied with `match`: the capture when the line matches, none otherwise; its two directions are `VersionLineMatches` and `MatchedLineShape` |
| BuildScript.MatchedLineShape | nmk/build.py:119 | the converse: every matching line has that shape, with the capture as its value |
| BuildScript.GreedyCapture | nmk/build.py:119 | the capture runs to the last `"` on the line, past inner quotes |
| BuildScript.OtherLinesDoNotMatch | nmk/build.py:119 | a line not starting with `version` does not match |
| BuildScript.FirstMatch | nmk/build.py:121-125 | no result exactly when no line matches; otherwise the result is the capture of some line |
| BuildScript.LaterLinesIgnored | nmk/build.py:121-124 | once a line matches, lines after it do not change the result |
| BuildScript.GetVersionFromManifest | nmk/build.py:118-125 | the loop with early return yields the capture of the first matching line, or none |
| BuildScript.BuildRustFlags | nmk/build.py:93-97 | `-C link-arg=-s` when stripping, empty otherwise |
| BuildScript.BuildReleaseEnv | nmk/build.py:100-108 | `RUSTFLAGS` is always set; `CARGO_PROFILE_RELEASE_LTO=true` exactly when `lto`; `GIT_SHORT_SHA` exactly when the commit id is truthy; no other key |
| BuildScript.ChildEnv | nmk/build.py:113 | the child environment holds the inherited variables overridden by the build variables |
| BuildScript.SelectTriple | nmk/build.py:72-76 | a target resolves exactly when it is a table key; the default is `x86_64-unknown-linux-musl`; results are always triples of the table |
| BuildScript.TargetTable | nmk/build.py:19-25 | four targets, each mapped to a distinct triple |
| BuildScript.GetReleaseDir | nmk/build.py:128-129 | the release directory is the target directory, then the triple, then `release` |
| BuildScript.ReleaseDirInjective | nmk/build.py:128-129 | different triples have different release directories |
| BuildScript.Dist | nmk/build.py:140-145 | compresses `nmk` and `nmkup` to `<bin>-<triple>.xz`, then copies `nmkup` to `nmkup-<triple>`, in that order |
| BuildScript.DistNamesDistinct | nmk/build.py:140-145 | the three dist files have different names |
| ShellEnv.Environment.Get | nmk/src/bin/nmk/entrypoint.rs:42 | a variable's value exactly when it is set |
| ShellEnv.Environment.Set | nmk/src/bin/nmk/entrypoint.rs:17-22 | sets one variable and nothing else |
| ShellEnv.Environment.Remove | nmk/src/bin/nmk/entrypoint.rs:52 | removes one variable and nothing else |
| ShellEnv.WithPreferredEditor | nmk/src/bin/nmk/entrypoint.rs:39-54 | `setup_preferred_editor` on the variables; stated by `PreferredEditorTable` |
| ShellEnv.PreferredEditorTable | nmk/src/bin/nmk/entrypoint.rs:39-54 | a set `$EDITOR` that is found is kept; otherwise `nvim` if found, else `vim` if found; with none found `EDITOR` is removed; nothing else changes |
| ShellEnv.PathUpdatesOnlyChange | nmk/src/bin/nmk/entrypoint.rs:56-82 | the search-path update changes only `PATH` and the library-path update only `LD_LIBRARY_PATH` |
| ShellEnv.SearchPathPrepends | nmk/src/bin/nmk/entrypoint.rs:64-69 | the new `PATH` holds the new entries ahead of the old ones, tidied |
| ShellEnv.LibraryPathPrepends | nmk/src/bin/nmk/entrypoint.rs:73-82 | a missing library directory leaves the environment alone; an existing one becomes the first `LD_LIBRARY_PATH` entry, ahead of the old ones in order |
| ShellEnv.OnlyChangesTrans | nmk/src/bin/nmk/entrypoint.rs:115-117 | steps that each change only their own variables together change only the union of them |
| NmkEntrypoint.Quote | nmk/src/bin/nmk/entrypoint.rs:34-37 | the quoting of one word by `shell_words::join`; stated by `QuoteRoundTrip` and `QuoteUnsafe` |
| NmkEntrypoint.ShellJoin | nmk/src/bin/nmk/entrypoint.rs:34-37 | `shell_words::join`: the quoted words separated by single spaces; `VimInitWord` states it for `VIMINIT` |
| NmkEntrypoint.QuoteRoundTrip | nmk/src/bin/nmk/entrypoint.rs:34-37 | a POSIX shell reads every quoted word back as the original word |
| NmkEntrypoint.QuoteUnsafe | nmk/src/bin/nmk/entrypoint.rs:34-37 | a word with a special character and no single quote is wrapped in single quotes |
| NmkEntrypoint.BuildVimInit | nmk/src/bin/nmk/entrypoint.rs:34-37 | `build_vim_init`; stated by `VimInitWord`, `VimInitReadsBack`, `VimInitUnquoted` and `VimInitQuoted` |
| NmkEntrypoint.VimInitWord | nmk/src/bin/nmk/entrypoint.rs:34-37 | `VIMINIT` is `source ` and the quoted path of `init.vim` in the vim directory |
| NmkEntrypoint.VimInitReadsBack | nmk/src/bin/nmk/entrypoint.rs:34-37 | `VIMINIT` starts with `source `, and a shell reads the rest back as the path of `init.vim` |
| NmkEntrypoint.VimInitUnquoted | nmk/src/bin/nmk/entrypoint.rs:34-37 | a path without special characters is written as is |
| NmkEntrypoint.VimInitQuoted | nmk/src/bin/nmk/entrypoint.rs:34-37 | a path with a special character, such as a space, is single-quoted |
| NmkEntrypoint.VimInitPlainExample | nmk/src/bin/nmk/entrypoint.rs:157-161 | `/home/user/.nmk/vim` gives `source /home/user/.nmk/vim/init.vim` |
| NmkEntrypoint.VimInitSpacedExample | nmk/src/bin/nmk/entrypoint.rs:163-165 | `/home/user with space/.nmk/vim` gives `source '/home/user with space/.nmk/vim/init.vim'` |
| NmkEntrypoint.SetupPreferredEditor | nmk/src/bin/nmk/entrypoint.rs:39-54 | the environment becomes the editor choice of the decision table |
| NmkEntrypoint.NmkSearchPathOrder | nmk/src/bin/nmk/entrypoint.rs:59-65 | the added entries are the existing ones of the nmk bin and vendor bin directories, in that order |
| NmkEntrypoint.SetupShellSearchPath | nmk/src/bin/nmk/entrypoint.rs:56-70 | with `PATH` set, it becomes the existing nmk directories followed by the old entries, tidied; an unset `PATH` is the failed `expect` and changes nothing |
| NmkEntrypoint.SetupShellLibraryPath | nmk/src/bin/nmk/entrypoint.rs:73-82 | `LD_LIBRARY_PATH` changes only when the vendor library directory exists, which is then prepended |
| NmkEntrypoint.SetupEnvironmentVariable | nmk/src/bin/nmk/entrypoint.rs:24-32 | sets `NMK_HOME`, `ZDOTDIR` and `VIMINIT`, then chooses the editor |
| NmkEntrypoint.HomeVariablesSpec | nmk/src/bin/nmk/entrypoint.rs:24-30 | `NMK_HOME` is the home, `ZDOTDIR` its zsh directory, `VIMINIT` built from its vim directory; nothing else changes |
| NmkEntrypoint.EditorKeepsHomeVariables | nmk/src/bin/nmk/entrypoint.rs:30-31 | choosing the editor after exporting the directories leaves `NMK_HOME`, `ZDOTDIR` and `VIMINIT` at the home, zsh and vim values just set |
| NmkEntrypoint.PrepareShell | nmk/src/bin/nmk/entrypoint.rs:115-117 | library path, then search path, then home variables and editor; stops after the library path when `PATH` is unset |
| NmkEntrypoint.ShellVariablesSpec | nmk/src/bin/nmk/entrypoint.rs:115-117 | the preparation changes only `LD_LIBRARY_PATH`, `PATH`, `NMK_HOME`, `ZDOTDIR`, `VIMINIT` and `EDITOR`, with the values each step gives them |
| NmkEntrypoint.ShouldSuggestUpdate | nmk/src/bin/nmk/entrypoint.rs:93-104 | whether `check_for_update_suggest` shows its notice; stated by `UpdateSuggestThreshold` |
| NmkEntrypoint.UpdateSuggestThreshold | nmk/src/bin/nmk/entrypoint.rs:93-104 | the suggestion shows exactly when the build is known to be strictly older than 45 days (3888000 seconds): not at 3888000, yes at 3888001, and for every older build too |
| NmkEntrypoint.LaunchPlan | nmk/src/bin/nmk/entrypoint.rs:119-147 | what `main` starts or prints; stated by `LaunchPlanSpec` |
| NmkEntrypoint.LaunchPlanSpec | nmk/src/bin/nmk/entrypoint.rs:119-147 | login starts a login shell; an explicit `tmux_conf` is used without rendering; otherwise the rendered configuration, which starts with its header, is printed with `render` (and tmux is not started) or written to a temporary file for tmux |
| NmkupEnv.EscapeSpaces | nmkup/src/nmk.rs:35 | `replace(" ", "\\ ")`; stated by `EscapeRoundTrip`, `EscapedSpacesGuarded` and `EscapeSpacesPlain` |
| NmkupEnv.EscapeRoundTrip | nmkup/src/nmk.rs:35 | replacing each space with backslash-space can be undone |
| NmkupEnv.EscapedSpacesGuarded | nmkup/src/nmk.rs:35 | after escaping every space is preceded by a backslash, and the text grows by one character per space |
| NmkupEnv.EscapeSpacesPlain | nmkup/src/nmk.rs:35 | a path without spaces is unchanged |
| NmkupEnv.SetupEnvironment | nmkup/src/nmk.rs:30-44 | sets `NMK_DIR`, `VIMINIT` (escaped), `ZDOTDIR`, removes `VIRTUAL_ENV`, then sets `NMK_BIN` to the executable; a missing executable path is the failed `expect` after the earlier steps |
| NmkupEnv.DirVariablesSpec | nmkup/src/nmk.rs:30-41 | `NMK_DIR`, `ZDOTDIR` and `VIMINIT = source <escaped nmk_dir/vim/init.vim>` are set, `VIRTUAL_ENV` is gone, nothing else changes |
| NmkupEnv.SetupPreferredEditor | nmkup/src/nmk.rs:46-62 | the list with `$EDITOR` inserted at the front is searched in order; the environment becomes the editor choice of the decision table |
| NmkupEnv.SetupPath | nmkup/src/nmk.rs:64-71 | `PATH` becomes `nmk_dir/bin`, `nmk_dir/local/bin`, then the old entries, tidied; an unset `PATH` is the failed `expect` and changes nothing |
| NmkupEnv.SetupLdLibraryPath | nmkup/src/nmk.rs:73-85 | `LD_LIBRARY_PATH` changes only when `nmk_dir/local/lib` exists, which is then prepended |
| NmkupEnv.NmkDir | nmkup/src/nmk.rs:87-96 | `dir`: the nmk directory, or the panic as none; stated by `NmkDirSpec` |
| NmkupEnv.NmkDirSpec | nmkup/src/nmk.rs:87-96 | `$NMK_DIR` wins when set, whatever the home directory; otherwise `~/.nmk`; no home or a missing directory is the panic; a returned directory exists |
| NmkupEnv.LauncherVariablesSpec | nmkup/src/nmk.rs:124-134 | the preparation changes only its own variables, keeps `is_dev_machine`, removes `VIRTUAL_ENV` and sets `NMK_BIN` to the executable |
| NmkupEnv.IsDevMachine | nmkup/src/nmk.rs:110-113 | `is_dev_machine`: both `DISPLAY` and `WINDOWID` are set; `DevMachineKept` states that the launcher keeps it |
| NmkupEnv.DevMachineKept | nmkup/src/nmk.rs:110-113 | `is_dev_machine` (both `DISPLAY` and `WINDOWID` set) is unaffected by the launcher's updates |
| NmkupEnv.Prepare | nmkup/src/nmk.rs:124-134 | locate the directory, then library path, search path, `Tmux::new`, directory variables, editor; it completes exactly when the directory is found, `PATH` is set, tmux is usable and the executable path is known; a failed lookup changes nothing; a missing `PATH` leaves the library path set; an unusable tmux leaves the library and search paths set; a missing executable path leaves the directory variables set too |
| LegacyEnv.LegacyPreferredEditor | nmk.rs/src/nmk.rs:37-46 | the oldest `setup_preferred_editor` on the variables; stated by `LegacyEditorTable` |
| LegacyEnv.LegacyEditorTable | nmk.rs/src/nmk.rs:37-46 | a set `EDITOR` is never changed; otherwise `nvim`, then `vim` if found; with neither nothing is set; nothing else changes |
| LegacyEnv.SetupPreferredEditor | nmk.rs/src/nmk.rs:37-46 | the environment becomes the legacy editor choice |
| Generations.EditorGenerationsAgree | nmk.rs/src/nmk.rs:37-46 | the oldest and current editor choices agree whenever `EDITOR` is unset or is found |
| Generations.EditorGenerationsDiffer | nmkup/src/nmk.rs:46-62 | with an `EDITOR` that is not found, the oldest launcher keeps it while the newer ones replace or remove it |
| Generations.VimInitGenerationsAgree | nmkup/src/nmk.rs:31-38 | for a path without shell-special characters, quoting and space-escaping give the same `VIMINIT` |
| Generations.VimInitGenerationsDiffer | nmk/src/bin/nmk/entrypoint.rs:34-37 | for a path with a space (and no single quote), the current and older `VIMINIT` differ |

## Left out

- Network access: the object listing, metadata fetch and download are
  inputs, and their failures are `Err` values.
- xz decompression, tar unpacking, the entrypoint install and the metadata
  file format. They are foreign libraries or unseen code, so they appear
  only as recorded effects.
- Terminal and console I/O: the vendor prompt's printing and flushing, the
  OS information display, the message of the day, logging and the update
  message text (`HumanTime`).
- The age since the build is an input; `seconds_since_build` is not part
  of this model.
- Process launching: `tmux.exec`, the login shell, `zsh::init`/`zsh::setup`
  and `tmux.setup_environment`. They are the ends of the launch plan, not
  modelled further. The same holds for `NMK_TMUX_VERSION` and the 256-colour
  detection in `main`, and the subprocess calls (`cargo`, `cross`, `git`,
  `lzma`) of `build.py`.
- `NmkEntrypoint.LaunchPlanSpec`: a failure while writing the temporary
  configuration file is not modelled. It is I/O in the unseen `Tmux` type.
- `NmkEntrypoint.LaunchPlanSpec`: the call at
  nmk/src/bin/nmk/entrypoint.rs:133 passes a writer and a context that the
  `render` of nmk/src/nmk/tmux/config.rs:20 does not take. The plan uses
  `render` as defined in config.rs, which depends only on the version.
- `NmkupEnv.SetupEnvironment`: `VIMINIT` is always set. Paths are strings
  here, so the skip for a path that is not valid UTF-8 is not modelled, and
  neither is `to_string_lossy`.
- `ShellEnv.SearchPathPrepends`: `PathVec` parsing, `unique`,
  `without_version_managers`/`no_version_managers` and joining are given
  functions. The order of the new entries is proved only under the
  assumption that parsing reads back what joining wrote.
- `ShellEnv.LibraryPathPrepends`: the same given functions; the new first
  entry and the order behind it are proved only under the assumption that
  parsing reads back what joining wrote.
- `BuildScript.GetVersionFromManifest`: the manifest is given as its list of
  lines. A failure to open or decode the file (nmk/build.py:120) is not
  modelled.
- `NmkupEnv.Prepare`: `Tmux::new` (nmkup/src/nmk.rs:129) is not part of this
  model. Whether it finds a usable tmux is an input (`tmuxReady`); when it
  does not, the source panics, and the model stops there.
- `which::which` and `Path::exists` are given predicates.
- `NmkHome::locate` and the layout of the nmk directory are inputs
  (`NmkEntrypoint.NmkHome`). `PathJoin` models `Path::join` only for
  relative names.
- `NmkEntrypoint.QuoteRoundTrip`: `shell_words::join` is not part of this
  model. Its quoting follows the rules of that crate: an empty word is
  `''`; a word with none of the characters ``|&;<>()$`\"'``, space, tab,
  newline, `*?[#~=%` is left bare; anything else is single-quoted, with `'`
  becoming `'\''`. The round trip is proved against a POSIX shell reader
  written here.
- The tmux `Version` type is not part of this model. It is taken as the
  releases 2.1 to 3.2 in order, printed as `major.minor`.
- `TmuxConfig.Writer.Write`: each `write!`/`writeln!` call is one write that
  succeeds or fails as a whole. A partial write inside a formatting call is
  not modelled.
- `NmkupVendor.SelectVendorFiles`: a read error and the end of input are
  modelled as a scripted line list that can run out
  (`InputExhausted`). At end of input the source prompts again forever.
- Panics (`expect`, `assert!`, `panic!`) are modelled as `ok == false`,
  `None` or `Err(Panic)` with the state reached so far.
- `BuildScript.SkipSpaces`: Python's `\s` is taken as the characters
  `str.isspace` accepts: Unicode White_Space plus U+001C to U+001F.
- Argument parsing in `build.py` (`argparse`), the `Opt` class and the
  command-line dispatch of both binaries.
