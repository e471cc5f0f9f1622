/**
 * The current launcher, `nmk` (nmk/src/bin/nmk/entrypoint.rs): it prepends
 * the vendor library directory to `LD_LIBRARY_PATH`, puts its own `bin`
 * directories ahead of `PATH`, exports `NMK_HOME`, `ZDOTDIR` and a
 * shell-quoted `VIMINIT`, picks an editor, and then either runs a login
 * shell or starts tmux with a given, printed or freshly rendered
 * configuration. It also suggests an update once the build is older than
 * 45 days.
 */
module NmkEntrypoint {
  import opened Common
  import opened ShellEnv
  import TmuxConfig

  const NMK_HOME: string := "NMK_HOME"

  /** The dotfiles directory and the directories inside it that the launcher
      uses; their layout (`NmkHome::nmk_path`) is given. */
  datatype NmkHome = NmkHome(root: string, zsh: string, vim: string,
                             bin: string, vendorBin: string, vendorLib: string)

  // ---------------------------------------------------------------------------
  // Shell quoting (`shell_words::quote` / `shell_words::join`)

  /** The characters that make `shell_words::quote` quote a word: the shell
      metacharacters, quotes, blanks, glob and expansion characters. */
  const SHELL_SPECIAL: string := "|&;<>()$`\\\"' \t\n*?[#~=%"

  /** A character that can stand in an unquoted word. */
  predicate IsShellSafe(c: char) {
    c !in SHELL_SPECIAL
  }

  predicate AllShellSafe(s: string) {
    forall i :: 0 <= i < |s| ==> IsShellSafe(s[i])
  }

  /** A character inside single quotes; a quote closes, escapes and reopens. */
  function QuoteChar(c: char): string {
    if c == '\'' then "'\\''" else [c]
  }

  /** `shell_words::quote`: empty is `''`, a word without special characters
      is left alone, anything else is single-quoted. */
  function Quote(word: string): string {
    if word == [] then "''"
    else if AllShellSafe(word) then word
    else "'" + ConcatMap(QuoteChar, word) + "'"
  }

  /** The quoted words separated by single spaces. */
  function ShellJoin(words: seq<string>): string {
    if words == [] then ""
    else if |words| == 1 then Quote(words[0])
    else Quote(words[0]) + " " + ShellJoin(words[1..])
  }

  /** How a POSIX shell reads one word: `'…'` is taken literally up to the
      next quote, a backslash takes the next character literally. */
  function Unquote(w: string): string
    decreases |w|
  {
    if w == [] then []
    else if w[0] == '\'' then InQuotes(w[1..])
    else if w[0] == '\\' && |w| > 1 then [w[1]] + Unquote(w[2..])
    else [w[0]] + Unquote(w[1..])
  }

  /** The rest of a word after an opening single quote. */
  function InQuotes(w: string): string
    decreases |w|
  {
    if w == [] then []
    else if w[0] == '\'' then Unquote(w[1..])
    else [w[0]] + InQuotes(w[1..])
  }

  lemma {:induction false} UnquotePlain(s: string)
    requires forall i :: 0 <= i < |s| ==> s[i] != '\'' && s[i] != '\\'
    ensures Unquote(s) == s
  {
    if s != [] {
      UnquotePlain(s[1..]);
    }
  }

  lemma InQuotesPlainStep(c: char, t: string)
    requires c != '\''
    ensures InQuotes([c] + t) == [c] + InQuotes(t)
  {
    assert ([c] + t)[1..] == t;
  }

  /** An escaped quote inside quotes: close, backslash-quote, reopen. */
  lemma InQuotesQuoteStep(t: string)
    ensures InQuotes(QuoteChar('\'') + t) == ['\''] + InQuotes(t)
  {
    var w := QuoteChar('\'') + t;
    assert w == ['\'', '\\', '\'', '\''] + t;
    var u := w[1..];
    assert u == ['\\', '\'', '\''] + t;
    assert InQuotes(w) == Unquote(u);
    assert u[2..] == ['\''] + t;
    assert Unquote(u) == [u[1]] + Unquote(u[2..]);
    assert (['\''] + t)[1..] == t;
    assert Unquote(['\''] + t) == InQuotes(t);
  }

  lemma {:induction false} InQuotesBody(s: string, rest: string)
    ensures InQuotes(ConcatMap(QuoteChar, s) + "'" + rest) == s + Unquote(rest)
  {
    if s == [] {
      assert ConcatMap(QuoteChar, s) + "'" + rest == "'" + rest;
      assert ("'" + rest)[1..] == rest;
    } else {
      var tail := ConcatMap(QuoteChar, s[1..]) + "'" + rest;
      assert ConcatMap(QuoteChar, s) + "'" + rest == QuoteChar(s[0]) + tail;
      InQuotesBody(s[1..], rest);
      if s[0] == '\'' {
        InQuotesQuoteStep(tail);
      } else {
        InQuotesPlainStep(s[0], tail);
      }
      assert s == [s[0]] + s[1..];
    }
  }

  /** Quoting is undone by the shell: every word reads back as itself. */
  lemma QuoteRoundTrip(word: string)
    ensures Unquote(Quote(word)) == word
  {
    if word == [] {
      assert Quote(word) == "''";
      assert Unquote("''") == InQuotes("'") == Unquote("");
    } else if AllShellSafe(word) {
      UnquotePlain(word);
    } else {
      InQuotesBody(word, "");
      assert ("'" + ConcatMap(QuoteChar, word) + "'")[1..] == ConcatMap(QuoteChar, word) + "'" + "";
    }
  }

  predicate NoSingleQuote(s: string) {
    forall i :: 0 <= i < |s| ==> s[i] != '\''
  }

  lemma NoSingleQuoteAppend(a: string, b: string)
    requires NoSingleQuote(a) && NoSingleQuote(b)
    ensures NoSingleQuote(a + b)
  {
    forall i | 0 <= i < |a + b| ensures (a + b)[i] != '\'' {
      if i >= |a| {
        assert (a + b)[i] == b[i - |a|];
      }
    }
  }

  lemma {:induction false} QuoteCharsPlain(s: string)
    requires NoSingleQuote(s)
    ensures ConcatMap(QuoteChar, s) == s
  {
    if s != [] {
      QuoteCharsPlain(s[1..]);
      assert s == [s[0]] + s[1..];
    }
  }

  /** A word with a special character but no single quote is wrapped in
      single quotes as it is. */
  lemma QuoteUnsafe(word: string)
    requires !AllShellSafe(word) && NoSingleQuote(word)
    ensures Quote(word) == "'" + word + "'"
  {
    QuoteCharsPlain(word);
  }

  // ---------------------------------------------------------------------------
  // VIMINIT

  /** `VIMINIT`: the command sourcing `init.vim` in the vim directory. */
  function BuildVimInit(vimDir: string): string {
    ShellJoin(["source", PathJoin(vimDir, "init.vim")])
  }

  lemma VimInitWord(vimDir: string)
    ensures BuildVimInit(vimDir) == "source " + Quote(PathJoin(vimDir, "init.vim"))
  {
    var p := PathJoin(vimDir, "init.vim");
    assert AllShellSafe("source");
    assert Quote("source") == "source";
    assert ["source", p][1..] == [p];
    assert ShellJoin([p]) == Quote(p);
  }

  /** `VIMINIT` is `source ` followed by one shell word that reads back as
      the path of `init.vim`, whatever characters the path holds. */
  lemma VimInitReadsBack(vimDir: string)
    ensures var v := BuildVimInit(vimDir);
      "source " <= v && Unquote(v[|"source "|..]) == PathJoin(vimDir, "init.vim")
  {
    VimInitWord(vimDir);
    QuoteRoundTrip(PathJoin(vimDir, "init.vim"));
  }

  /** A path without special characters is used as it is. */
  lemma VimInitUnquoted(vimDir: string)
    requires AllShellSafe(PathJoin(vimDir, "init.vim"))
    ensures BuildVimInit(vimDir) == "source " + PathJoin(vimDir, "init.vim")
  {
    VimInitWord(vimDir);
  }

  /** Any other path without a single quote in it is single-quoted as a
      whole. */
  lemma VimInitQuoted(vimDir: string)
    requires !AllShellSafe(PathJoin(vimDir, "init.vim"))
    requires NoSingleQuote(PathJoin(vimDir, "init.vim"))
    ensures BuildVimInit(vimDir) == "source '" + PathJoin(vimDir, "init.vim") + "'"
  {
    var p := PathJoin(vimDir, "init.vim");
    QuoteUnsafe(p);
    VimInitWord(vimDir);
    SourceQuoted(p);
  }

  lemma SourceQuoted(p: string)
    ensures "source " + ("'" + p + "'") == "source '" + p + "'"
  {
  }

  /** The home directories of the source's own test of `build_vim_init`. */
  const TEST_HOME: string := "/home/user"
  const TEST_SPACED_HOME: string := "/home/user with space"

  /** The vim directory under a home directory, joined with `init.vim`. */
  lemma TestPathJoin(home: string)
    ensures PathJoin(home + "/.nmk/vim", "init.vim") == home + "/.nmk/vim/init.vim"
  {
    var d := home + "/.nmk/vim";
    assert d[|d| - 1] == 'm';
  }

  lemma AllShellSafeAppend(a: string, b: string)
    requires AllShellSafe(a) && AllShellSafe(b)
    ensures AllShellSafe(a + b)
  {
    forall i | 0 <= i < |a + b| ensures IsShellSafe((a + b)[i]) {
      if i >= |a| {
        assert (a + b)[i] == b[i - |a|];
      }
    }
  }

  lemma TestHomeSafe()
    ensures AllShellSafe(TEST_HOME)
  {
    forall i | 0 <= i < |TEST_HOME| ensures IsShellSafe(TEST_HOME[i]) {
      assert TEST_HOME[i] in "/homeusr";
    }
  }

  lemma TestTailSafe()
    ensures AllShellSafe("/.nmk/vim/init.vim")
  {
    var t := "/.nmk/vim/init.vim";
    forall i | 0 <= i < |t| ensures IsShellSafe(t[i]) {
      assert t[i] in "/.nmkvimt";
    }
  }

  lemma TestPathsShape()
    ensures AllShellSafe(TEST_HOME + "/.nmk/vim/init.vim")
    ensures !AllShellSafe(TEST_SPACED_HOME + "/.nmk/vim/init.vim")
    ensures NoSingleQuote(TEST_SPACED_HOME + "/.nmk/vim/init.vim")
  {
    var p := TEST_SPACED_HOME + "/.nmk/vim/init.vim";
    assert p[10] == ' ';
    assert NoSingleQuote(TEST_SPACED_HOME) && NoSingleQuote("/.nmk/vim/init.vim");
    NoSingleQuoteAppend(TEST_SPACED_HOME, "/.nmk/vim/init.vim");
    TestHomeSafe();
    TestTailSafe();
    AllShellSafeAppend(TEST_HOME, "/.nmk/vim/init.vim");
  }

  lemma SourceQuotedTest(home: string)
    ensures "source '" + (home + "/.nmk/vim/init.vim") + "'" == "source '" + home + "/.nmk/vim/init.vim'"
  {
  }

  /** The test's plain path is left as it is. */
  lemma VimInitPlainExample()
    ensures BuildVimInit(TEST_HOME + "/.nmk/vim") == "source " + TEST_HOME + "/.nmk/vim/init.vim"
  {
    TestPathJoin(TEST_HOME);
    TestPathsShape();
    VimInitUnquoted(TEST_HOME + "/.nmk/vim");
  }

  /** The test's path with a space is single-quoted. */
  lemma VimInitSpacedExample()
    ensures BuildVimInit(TEST_SPACED_HOME + "/.nmk/vim")
         == "source '" + TEST_SPACED_HOME + "/.nmk/vim/init.vim'"
  {
    TestPathJoin(TEST_SPACED_HOME);
    TestPathsShape();
    VimInitQuoted(TEST_SPACED_HOME + "/.nmk/vim");
    SourceQuotedTest(TEST_SPACED_HOME);
  }

  // ---------------------------------------------------------------------------
  // Environment setup

  /** `setup_preferred_editor`: `$EDITOR` if set, then `nvim`, then `vim`;
      the first on the search path is exported, else `EDITOR` is removed. */
  method SetupPreferredEditor(env: Environment, found: string -> bool)
    modifies env
    ensures env.vars == WithPreferredEditor(old(env.vars), found)
  {
    var current := env.Get(EDITOR);
    var candidates := (if current.Some? then [current.value] else []) + PREFERRED_EDITORS;
    match FirstFound(candidates, found)
    case Some(editor) => env.Set(EDITOR, editor);
    case None => env.Remove(EDITOR);
  }

  /** The launcher's own program directories that exist, in order. */
  function NmkSearchPath(home: NmkHome, pathExists: string -> bool): seq<string> {
    Filter(pathExists, [home.bin, home.vendorBin])
  }

  /** `bin` comes before the vendor `bin`; a missing one is skipped. */
  lemma NmkSearchPathOrder(home: NmkHome, pathExists: string -> bool)
    ensures NmkSearchPath(home, pathExists)
         == (if pathExists(home.bin) then [home.bin] else [])
          + (if pathExists(home.vendorBin) then [home.vendorBin] else [])
  {
    assert [home.bin, home.vendorBin][1..] == [home.vendorBin];
  }

  /** `setup_shell_search_path`: panics (`ok` false, nothing changed) when
      `PATH` is unset; otherwise `PATH` gets the existing launcher
      directories ahead of its old entries, tidied. */
  method SetupShellSearchPath(env: Environment, home: NmkHome, pathExists: string -> bool, ops: PathVecOps)
    returns (ok: bool)
    modifies env
    ensures ok <==> PATH in old(env.vars)
    ensures ok ==> env.vars == WithSearchPath(old(env.vars), NmkSearchPath(home, pathExists), ops)
    ensures !ok ==> env.vars == old(env.vars)
  {
    var current := env.Get(PATH);
    if current.None? {
      return false;
    }
    var searchPath := ops.parse(current.value);
    searchPath := Filter(pathExists, [home.bin, home.vendorBin]) + searchPath;
    searchPath := ops.tidy(searchPath);
    env.Set(PATH, ops.make(searchPath));
    ok := true;
  }

  /** `setup_shell_library_path`: the vendor `lib` directory, when it
      exists, goes ahead of the old `LD_LIBRARY_PATH` entries. */
  method SetupShellLibraryPath(env: Environment, home: NmkHome, pathExists: string -> bool, ops: PathVecOps)
    modifies env
    ensures env.vars == WithLibraryPath(old(env.vars), home.vendorLib, pathExists, ops)
  {
    if pathExists(home.vendorLib) {
      var current := env.Get(LD_LIBRARY_PATH);
      var path := if current.Some? then ops.parse(current.value) else [];
      path := [home.vendorLib] + path;
      env.Set(LD_LIBRARY_PATH, ops.make(path));
    }
  }

  /** The variables `setup_environment_variable` exports before choosing
      an editor. */
  function HomeVariables(vars: map<string, string>, home: NmkHome): map<string, string> {
    vars[NMK_HOME := home.root][ZDOTDIR := home.zsh][VIMINIT := BuildVimInit(home.vim)]
  }

  /** `setup_environment_variable`. */
  method SetupEnvironmentVariable(env: Environment, home: NmkHome, found: string -> bool)
    modifies env
    ensures env.vars == WithPreferredEditor(HomeVariables(old(env.vars), home), found)
  {
    env.Set(NMK_HOME, home.root);
    env.Set(ZDOTDIR, home.zsh);
    var vimDir := home.vim;
    env.Set(VIMINIT, BuildVimInit(vimDir));
    SetupPreferredEditor(env, found);
  }

  /** The environment `main` prepares: library path, search path, then the
      exported variables and the editor. */
  function ShellVariables(vars: map<string, string>, home: NmkHome, pathExists: string -> bool,
                          found: string -> bool, ops: PathVecOps): map<string, string> {
    var withLib := WithLibraryPath(vars, home.vendorLib, pathExists, ops);
    var withPath := WithSearchPath(withLib, NmkSearchPath(home, pathExists), ops);
    WithPreferredEditor(HomeVariables(withPath, home), found)
  }

  /** The environment steps of `main`, in its order. A missing `PATH`
      panics after the library path was already set. */
  method PrepareShell(env: Environment, home: NmkHome, pathExists: string -> bool,
                      found: string -> bool, ops: PathVecOps)
    returns (ok: bool)
    modifies env
    ensures ok <==> PATH in old(env.vars)
    ensures ok ==> env.vars == ShellVariables(old(env.vars), home, pathExists, found, ops)
    ensures !ok ==> env.vars == WithLibraryPath(old(env.vars), home.vendorLib, pathExists, ops)
  {
    SetupShellLibraryPath(env, home, pathExists, ops);
    ok := SetupShellSearchPath(env, home, pathExists, ops);
    if !ok {
      return;
    }
    SetupEnvironmentVariable(env, home, found);
  }

  lemma HomeVariablesSpec(vars: map<string, string>, home: NmkHome)
    ensures var r := HomeVariables(vars, home);
      OnlyChanges(vars, r, {NMK_HOME, ZDOTDIR, VIMINIT})
      && r[NMK_HOME] == home.root && r[ZDOTDIR] == home.zsh && r[VIMINIT] == BuildVimInit(home.vim)
  {
  }

  /** Choosing the editor after exporting the directories leaves the three
      exported directory variables as they were set. */
  lemma EditorKeepsHomeVariables(vars: map<string, string>, home: NmkHome, found: string -> bool)
    ensures var after := WithPreferredEditor(HomeVariables(vars, home), found);
      after[NMK_HOME] == home.root && after[ZDOTDIR] == home.zsh && after[VIMINIT] == BuildVimInit(home.vim)
  {
    var exported := HomeVariables(vars, home);
    HomeVariablesSpec(vars, home);
    PreferredEditorTable(exported, found);
    assert NMK_HOME !in {EDITOR} && ZDOTDIR !in {EDITOR} && VIMINIT !in {EDITOR};
  }

  /** The variables the launcher manages. */
  const SHELL_KEYS: set<string> := {LD_LIBRARY_PATH, PATH, NMK_HOME, ZDOTDIR, VIMINIT, EDITOR}

  /** The prepared environment differs from the inherited one only in the
      six variables the launcher manages, and the three it exports carry the
      launcher's directories. */
  lemma ShellVariablesSpec(vars: map<string, string>, home: NmkHome, pathExists: string -> bool,
                           found: string -> bool, ops: PathVecOps)
    ensures var after := ShellVariables(vars, home, pathExists, found, ops);
      OnlyChanges(vars, after, SHELL_KEYS)
      && after[NMK_HOME] == home.root && after[ZDOTDIR] == home.zsh
      && after[VIMINIT] == BuildVimInit(home.vim)
  {
    var withLib := WithLibraryPath(vars, home.vendorLib, pathExists, ops);
    var withPath := WithSearchPath(withLib, NmkSearchPath(home, pathExists), ops);
    var exported := HomeVariables(withPath, home);
    var after := WithPreferredEditor(exported, found);
    PathUpdatesOnlyChange(vars, [], home.vendorLib, pathExists, ops);
    PathUpdatesOnlyChange(withLib, NmkSearchPath(home, pathExists), "", pathExists, ops);
    PreferredEditorTable(exported, found);
    HomeVariablesSpec(withPath, home);
    EditorKeepsHomeVariables(withPath, home, found);
    OnlyChangesTrans(vars, withLib, withPath, {LD_LIBRARY_PATH}, {PATH});
    OnlyChangesTrans(vars, withPath, exported, {LD_LIBRARY_PATH} + {PATH}, {NMK_HOME, ZDOTDIR, VIMINIT});
    OnlyChangesTrans(vars, exported, after, {LD_LIBRARY_PATH} + {PATH} + {NMK_HOME, ZDOTDIR, VIMINIT}, {EDITOR});
  }

  // ---------------------------------------------------------------------------
  // Update suggestion

  const DAY_SECS: nat := 24 * 60 * 60

  /** `check_for_update_suggest` prints its notice for these ages of the
      build, in seconds (`None`: the age is unknown). */
  predicate ShouldSuggestUpdate(secsSinceBuild: Option<nat>) {
    secsSinceBuild.Some? && secsSinceBuild.value > 45 * DAY_SECS
  }

  /** The notice appears exactly after 45 days (3 888 000 seconds), not at
      45 days, and stays for every older build. */
  lemma UpdateSuggestThreshold(secsSinceBuild: Option<nat>)
    ensures ShouldSuggestUpdate(secsSinceBuild) <==> secsSinceBuild.Some? && secsSinceBuild.value > 3888000
    ensures !ShouldSuggestUpdate(Some(3888000)) && ShouldSuggestUpdate(Some(3888001))
    ensures ShouldSuggestUpdate(secsSinceBuild) ==>
      forall later: nat :: later >= secsSinceBuild.value ==> ShouldSuggestUpdate(Some(later))
  {
  }

  // ---------------------------------------------------------------------------
  // What `main` starts

  /** Where tmux's configuration comes from. */
  datatype ConfigFile =
    | GivenFile(path: string)    // `--tmux-conf`
    | TempFile(text: string)     // the rendered configuration, written to a temporary file

  datatype Launch =
    | LoginShell                  // `--login`: exec the login shell
    | PrintConfig(text: string)   // `--render`: the configuration goes to stdout; nothing is exec'd
    | ExecTmux(config: ConfigFile)

  /** The branch `main` takes once the environment is prepared. */
  function LaunchPlan(login: bool, tmuxConf: Option<string>, render: bool,
                      version: TmuxConfig.Version): Launch {
    if login then LoginShell
    else if tmuxConf.Some? then ExecTmux(GivenFile(tmuxConf.value))
    else if render then PrintConfig(TmuxConfig.Config(version))
    else ExecTmux(TempFile(TmuxConfig.Config(version)))
  }

  /** A given configuration file bypasses rendering, and the render flag is
      then ignored; without one, the configuration is rendered for the tmux
      version and either printed (and tmux not started) or used. */
  lemma LaunchPlanSpec(login: bool, tmuxConf: Option<string>, render: bool, version: TmuxConfig.Version)
    ensures var r := LaunchPlan(login, tmuxConf, render, version);
      (login <==> r.LoginShell?)
      && (r.PrintConfig? <==> !login && tmuxConf.None? && render)
      && (!login && tmuxConf.Some? ==> r == ExecTmux(GivenFile(tmuxConf.value)))
      && ((r.PrintConfig? || (r.ExecTmux? && r.config.TempFile?)) ==>
            var text := if r.PrintConfig? then r.text else r.config.text;
            tmuxConf.None? && text == TmuxConfig.Config(version)
            && "# tmux " + TmuxConfig.VersionStr(version) + " configuration\n" <= text)
  {
    TmuxConfig.ConfigStartsWithHeader(version);
  }
}
