/**
 * The second-generation launcher (nmkup/src/nmk.rs): it locates the dotfiles
 * directory (`$NMK_DIR`, else `~/.nmk`), prepends `local/lib` to
 * `LD_LIBRARY_PATH` and `bin`, `local/bin` to `PATH`, exports `NMK_DIR`,
 * `ZDOTDIR`, `NMK_BIN` and a `VIMINIT` whose spaces are backslash-escaped,
 * drops `VIRTUAL_ENV`, and picks an editor.
 *
 * `setup_path`, `setup_ld_library_path`, `setup_environment` and `dir`
 * of the first launcher (nmk.rs/src/nmk.rs) are the same code and are
 * modelled by the members here.
 */
module NmkupEnv {
  import opened Common
  import opened ShellEnv

  const NMK_DIR: string := "NMK_DIR"
  const NMK_BIN: string := "NMK_BIN"
  const VIRTUAL_ENV: string := "VIRTUAL_ENV"

  // ---------------------------------------------------------------------------
  // Space escaping in VIMINIT

  function EscapeSpace(c: char): string {
    if c == ' ' then "\\ " else [c]
  }

  /** `str::replace(" ", "\\ ")`: every space gets a backslash before it. */
  function EscapeSpaces(s: string): string {
    ConcatMap(EscapeSpace, s)
  }

  /** How Vim reads a file name back: a backslash-space is a space. */
  function UnescapeSpaces(s: string): string {
    if s == [] then []
    else if |s| > 1 && s[0] == '\\' && s[1] == ' ' then " " + UnescapeSpaces(s[2..])
    else [s[0]] + UnescapeSpaces(s[1..])
  }

  lemma {:induction false} EscapeSpacesCons(c: char, s: string)
    ensures EscapeSpaces([c] + s) == EscapeSpace(c) + EscapeSpaces(s)
  {
    assert ([c] + s)[1..] == s;
  }

  /** An escaped string never starts with a bare space. */
  lemma {:induction false} EscapedHead(s: string)
    ensures EscapeSpaces(s) == [] || EscapeSpaces(s)[0] != ' '
  {
    if s != [] {
      assert s == [s[0]] + s[1..];
      EscapeSpacesCons(s[0], s[1..]);
    }
  }

  lemma EscapedFirst(s: string)
    requires s != []
    ensures EscapeSpaces(s)[0] == if s[0] == ' ' then '\\' else s[0]
  {
    assert s == [s[0]] + s[1..];
    EscapeSpacesCons(s[0], s[1..]);
  }

  /** Escaping loses nothing: unescaping gives the original back, including
      backslashes that were already there. */
  lemma {:induction false} EscapeRoundTrip(s: string)
    ensures UnescapeSpaces(EscapeSpaces(s)) == s
  {
    if s != [] {
      var t := EscapeSpaces(s[1..]);
      assert s == [s[0]] + s[1..];
      EscapeSpacesCons(s[0], s[1..]);
      EscapeRoundTrip(s[1..]);
      if s[0] == ' ' {
        assert ("\\ " + t)[2..] == t;
      } else {
        EscapedHead(s[1..]);
        assert ([s[0]] + t)[1..] == t;
      }
    }
  }

  /** Every space of an escaped string has a backslash right before it, and
      the escaped string is longer by one for each space. */
  lemma {:induction false} EscapedSpacesGuarded(s: string)
    ensures var r := EscapeSpaces(s);
      (forall i :: 0 <= i < |r| && r[i] == ' ' ==> i > 0 && r[i - 1] == '\\')
      && |r| == |s| + multiset(s)[' ']
  {
    if s != [] {
      var t := EscapeSpaces(s[1..]);
      assert s == [s[0]] + s[1..];
      EscapeSpacesCons(s[0], s[1..]);
      EscapedSpacesGuarded(s[1..]);
      var h := EscapeSpace(s[0]);
      var r := h + t;
      forall i | 0 <= i < |r| && r[i] == ' '
        ensures i > 0 && r[i - 1] == '\\'
      {
        if i >= |h| {
          assert t[i - |h|] == ' ';
          if i > |h| {
            assert r[i - 1] == t[i - |h| - 1];
          }
        }
      }
      assert multiset(s) == multiset([s[0]]) + multiset(s[1..]);
    }
  }

  /** A path without spaces is used as it is. */
  lemma {:induction false} EscapeSpacesPlain(s: string)
    requires forall i :: 0 <= i < |s| ==> s[i] != ' '
    ensures EscapeSpaces(s) == s
  {
    if s != [] {
      assert s == [s[0]] + s[1..];
      EscapeSpacesCons(s[0], s[1..]);
      EscapeSpacesPlain(s[1..]);
    }
  }

  // ---------------------------------------------------------------------------
  // setup_environment

  function InitVimPath(nmkDir: string): string {
    PathJoin(PathJoin(nmkDir, "vim"), "init.vim")
  }

  /** `VIMINIT`: source `init.vim` with its spaces escaped. */
  function EscapedVimInit(nmkDir: string): string {
    "source " + EscapeSpaces(InitVimPath(nmkDir))
  }

  /** The variables `setup_environment` sets before `NMK_BIN`. */
  function DirVariables(vars: map<string, string>, nmkDir: string): map<string, string> {
    vars[NMK_DIR := nmkDir][VIMINIT := EscapedVimInit(nmkDir)][ZDOTDIR := PathJoin(nmkDir, "zsh")]
      - {VIRTUAL_ENV}
  }

  /** `setup_environment`: without a path to the running executable the
      launcher panics, after the other variables were already set. */
  method SetupEnvironment(env: Environment, nmkDir: string, currentExe: Option<string>)
    returns (ok: bool)
    modifies env
    ensures ok <==> currentExe.Some?
    ensures ok ==> env.vars == DirVariables(old(env.vars), nmkDir)[NMK_BIN := currentExe.value]
    ensures !ok ==> env.vars == DirVariables(old(env.vars), nmkDir)
  {
    var initVim := PathJoin(PathJoin(nmkDir, "vim"), "init.vim");
    var zdotdir := PathJoin(nmkDir, "zsh");
    env.Set(NMK_DIR, nmkDir);
    env.Set(VIMINIT, "source " + EscapeSpaces(initVim));
    env.Set(ZDOTDIR, zdotdir);
    env.Remove(VIRTUAL_ENV);
    if currentExe.None? {
      return false;
    }
    env.Set(NMK_BIN, currentExe.value);
    ok := true;
  }

  /** The exported directories are those of `nmkDir`, `VIRTUAL_ENV` is gone,
      `VIMINIT` reads back as the path of `init.vim`, and nothing else
      changes. */
  lemma DirVariablesSpec(vars: map<string, string>, nmkDir: string)
    ensures var r := DirVariables(vars, nmkDir);
      OnlyChanges(vars, r, {NMK_DIR, VIMINIT, ZDOTDIR, VIRTUAL_ENV})
      && VIRTUAL_ENV !in r
      && r[NMK_DIR] == nmkDir && r[ZDOTDIR] == PathJoin(nmkDir, "zsh")
      && "source " <= r[VIMINIT]
      && UnescapeSpaces(r[VIMINIT][|"source "|..]) == InitVimPath(nmkDir)
  {
    EscapeRoundTrip(InitVimPath(nmkDir));
    var v := EscapedVimInit(nmkDir);
    assert v[|"source "|..] == EscapeSpaces(InitVimPath(nmkDir));
  }

  // ---------------------------------------------------------------------------
  // setup_preferred_editor

  /** `setup_preferred_editor`: `$EDITOR` is inserted ahead of `nvim` and
      `vim`; the first candidate on the search path is exported, else
      `EDITOR` is removed. */
  method SetupPreferredEditor(env: Environment, found: string -> bool)
    modifies env
    ensures env.vars == WithPreferredEditor(old(env.vars), found)
  {
    var editors := PREFERRED_EDITORS;
    var current := env.Get(EDITOR);
    if current.Some? {
      editors := [current.value] + editors;
    }
    assert editors == EditorCandidates(env.vars);
    var i := 0;
    while i < |editors| && !found(editors[i])
      invariant 0 <= i <= |editors|
      invariant forall j :: 0 <= j < i ==> !found(editors[j])
    {
      i := i + 1;
    }
    var first := FirstFound(editors, found);
    if i < |editors| {
      assert first.Some? && first.value == editors[i] by {
        if first.Some? {
          var k :| 0 <= k < |editors| && editors[k] == first.value
                   && forall j :: 0 <= j < k ==> !found(editors[j]);
        }
      }
      env.Set(EDITOR, editors[i]);
    } else {
      env.Remove(EDITOR);
    }
  }

  // ---------------------------------------------------------------------------
  // Search paths

  /** The directories `setup_path` puts ahead of `PATH`: `bin`, then
      `local/bin`. */
  function NmkupSearchPath(nmkDir: string): seq<string> {
    [PathJoin(nmkDir, "bin"), PathJoin(PathJoin(nmkDir, "local"), "bin")]
  }

  function LocalLibDir(nmkDir: string): string {
    PathJoin(PathJoin(nmkDir, "local"), "lib")
  }

  /** `setup_path`: panics (`ok` false, nothing changed) when `PATH` is
      unset. `local/bin` is pushed to the front first and `bin` after it,
      so `bin` ends up first. */
  method SetupPath(env: Environment, nmkDir: string, ops: PathVecOps) returns (ok: bool)
    modifies env
    ensures ok <==> PATH in old(env.vars)
    ensures ok ==> env.vars == WithSearchPath(old(env.vars), NmkupSearchPath(nmkDir), ops)
    ensures !ok ==> env.vars == old(env.vars)
  {
    var current := env.Get(PATH);
    if current.None? {
      return false;
    }
    var old_entries := ops.parse(current.value);
    var binPath := [PathJoin(PathJoin(nmkDir, "local"), "bin")] + old_entries;
    binPath := [PathJoin(nmkDir, "bin")] + binPath;
    assert binPath == NmkupSearchPath(nmkDir) + old_entries;
    binPath := ops.tidy(binPath);
    env.Set(PATH, ops.make(binPath));
    ok := true;
  }

  /** `setup_ld_library_path`: `local/lib`, when it exists, goes ahead of
      the old `LD_LIBRARY_PATH` entries. */
  method SetupLdLibraryPath(env: Environment, nmkDir: string, pathExists: string -> bool, ops: PathVecOps)
    modifies env
    ensures env.vars == WithLibraryPath(old(env.vars), LocalLibDir(nmkDir), pathExists, ops)
  {
    var localLibDir := PathJoin(PathJoin(nmkDir, "local"), "lib");
    if pathExists(localLibDir) {
      var current := env.Get(LD_LIBRARY_PATH);
      var libPath := if current.Some? then ops.parse(current.value) else [];
      libPath := [localLibDir] + libPath;
      env.Set(LD_LIBRARY_PATH, ops.make(libPath));
    }
  }

  // ---------------------------------------------------------------------------
  // Locating the dotfiles directory

  /** `nmk_dir`: `$NMK_DIR` when set, else `.nmk` in the home directory;
      `None` is a panic (no home directory, or the directory is missing). */
  function NmkDir(vars: map<string, string>, home: Option<string>, pathExists: string -> bool): Option<string> {
    var path :=
      if NMK_DIR in vars then Some(vars[NMK_DIR])
      else if home.Some? then Some(PathJoin(home.value, ".nmk"))
      else None;
    if path.Some? && pathExists(path.value) then path else None
  }

  /** A set `$NMK_DIR` wins over the home directory, whatever it is; the
      home fallback is `~/.nmk`; and a directory is only returned when it
      exists. */
  lemma NmkDirSpec(vars: map<string, string>, home: Option<string>, pathExists: string -> bool)
    ensures var r := NmkDir(vars, home, pathExists);
      (r.Some? ==> pathExists(r.value))
      && (NMK_DIR in vars ==> r == (if pathExists(vars[NMK_DIR]) then Some(vars[NMK_DIR]) else None)
                              && forall other :: NmkDir(vars, other, pathExists) == r)
      && (NMK_DIR !in vars && home.Some? ==>
            r == (if pathExists(PathJoin(home.value, ".nmk")) then Some(PathJoin(home.value, ".nmk")) else None))
      && (NMK_DIR !in vars && home.None? ==> r.None?)
  {
  }

  /** `is_dev_machine`: both `DISPLAY` and `WINDOWID` are set. */
  predicate IsDevMachine(vars: map<string, string>) {
    "DISPLAY" in vars && "WINDOWID" in vars
  }

  /** The environment `main` prepares once the directory is known: library
      path, search path, the exported variables, then the editor. */
  function LauncherVariables(vars: map<string, string>, nmkDir: string, exe: string,
                             pathExists: string -> bool, found: string -> bool, ops: PathVecOps): map<string, string> {
    var withLib := WithLibraryPath(vars, LocalLibDir(nmkDir), pathExists, ops);
    var withPath := WithSearchPath(withLib, NmkupSearchPath(nmkDir), ops);
    WithPreferredEditor(DirVariables(withPath, nmkDir)[NMK_BIN := exe], found)
  }

  /** The variables `main` may change while preparing the environment. */
  const LAUNCHER_KEYS: set<string> :=
    {LD_LIBRARY_PATH, PATH, NMK_DIR, VIMINIT, ZDOTDIR, VIRTUAL_ENV, NMK_BIN, EDITOR}

  lemma LauncherOnlyChanges(vars: map<string, string>, nmkDir: string, exe: string,
                            pathExists: string -> bool, found: string -> bool, ops: PathVecOps)
    ensures OnlyChanges(vars, LauncherVariables(vars, nmkDir, exe, pathExists, found, ops), LAUNCHER_KEYS)
  {
    var withLib := WithLibraryPath(vars, LocalLibDir(nmkDir), pathExists, ops);
    var withPath := WithSearchPath(withLib, NmkupSearchPath(nmkDir), ops);
    var dirVars := DirVariables(withPath, nmkDir);
    var exported := dirVars[NMK_BIN := exe];
    PathUpdatesOnlyChange(vars, [], LocalLibDir(nmkDir), pathExists, ops);
    PathUpdatesOnlyChange(withLib, NmkupSearchPath(nmkDir), "", pathExists, ops);
    DirVariablesSpec(withPath, nmkDir);
    PreferredEditorTable(exported, found);
    OnlyChangesTrans(vars, withLib, withPath, {LD_LIBRARY_PATH}, {PATH});
    OnlyChangesTrans(vars, withPath, dirVars, {LD_LIBRARY_PATH} + {PATH}, {NMK_DIR, VIMINIT, ZDOTDIR, VIRTUAL_ENV});
    OnlyChangesTrans(vars, dirVars, exported,
                     {LD_LIBRARY_PATH} + {PATH} + {NMK_DIR, VIMINIT, ZDOTDIR, VIRTUAL_ENV}, {NMK_BIN});
    OnlyChangesTrans(vars, exported, WithPreferredEditor(exported, found),
                     {LD_LIBRARY_PATH} + {PATH} + {NMK_DIR, VIMINIT, ZDOTDIR, VIRTUAL_ENV} + {NMK_BIN}, {EDITOR});
  }

  lemma DevMachineKept(before: map<string, string>, after: map<string, string>)
    requires OnlyChanges(before, after, LAUNCHER_KEYS)
    ensures IsDevMachine(after) == IsDevMachine(before)
  {
    assert "DISPLAY" !in LAUNCHER_KEYS && "WINDOWID" !in LAUNCHER_KEYS;
  }

  /** Preparing the environment touches only the launcher's own variables,
      so whether this is a desktop session is the same before and after;
      `VIRTUAL_ENV` is gone and `NMK_BIN` names the executable. */
  lemma LauncherVariablesSpec(vars: map<string, string>, nmkDir: string, exe: string,
                              pathExists: string -> bool, found: string -> bool, ops: PathVecOps)
    ensures var after := LauncherVariables(vars, nmkDir, exe, pathExists, found, ops);
      OnlyChanges(vars, after, LAUNCHER_KEYS)
      && IsDevMachine(after) == IsDevMachine(vars)
      && VIRTUAL_ENV !in after && after[NMK_BIN] == exe
  {
    var after := LauncherVariables(vars, nmkDir, exe, pathExists, found, ops);
    LauncherOnlyChanges(vars, nmkDir, exe, pathExists, found, ops);
    DevMachineKept(vars, after);
    var withLib := WithLibraryPath(vars, LocalLibDir(nmkDir), pathExists, ops);
    var withPath := WithSearchPath(withLib, NmkupSearchPath(nmkDir), ops);
    DirVariablesSpec(withPath, nmkDir);
    PreferredEditorTable(DirVariables(withPath, nmkDir)[NMK_BIN := exe], found);
  }

  /** `main`'s setup steps, in its order; `ok` is false when one of them
      panics, with the variables set so far left in place. `tmuxReady` says
      whether `Tmux::new`, which runs between the search path and the
      exported variables, finds a usable tmux; it panics otherwise. */
  method Prepare(env: Environment, home: Option<string>, currentExe: Option<string>, tmuxReady: bool,
                 pathExists: string -> bool, found: string -> bool, ops: PathVecOps)
    returns (ok: bool)
    modifies env
    ensures ok <==> NmkDir(old(env.vars), home, pathExists).Some? && PATH in old(env.vars)
                    && tmuxReady && currentExe.Some?
    ensures ok ==>
      env.vars == LauncherVariables(old(env.vars), NmkDir(old(env.vars), home, pathExists).value,
                                    currentExe.value, pathExists, found, ops)
    // the directory lookup panics: nothing was changed
    ensures NmkDir(old(env.vars), home, pathExists).None? ==> env.vars == old(env.vars)
    // a later panic leaves the steps before it done
    ensures NmkDir(old(env.vars), home, pathExists).Some? ==>
      var nmkDir := NmkDir(old(env.vars), home, pathExists).value;
      var withLib := WithLibraryPath(old(env.vars), LocalLibDir(nmkDir), pathExists, ops);
      var withPath := WithSearchPath(withLib, NmkupSearchPath(nmkDir), ops);
      && (PATH !in old(env.vars) ==> env.vars == withLib)
      && (PATH in old(env.vars) && !tmuxReady ==> env.vars == withPath)
      && (PATH in old(env.vars) && tmuxReady && currentExe.None? ==> env.vars == DirVariables(withPath, nmkDir))
  {
    var nmkDir := NmkDir(env.vars, home, pathExists);
    if nmkDir.None? {
      return false;
    }
    SetupLdLibraryPath(env, nmkDir.value, pathExists, ops);
    assert (PATH in env.vars) == (PATH in old(env.vars)) by {
      PathUpdatesOnlyChange(old(env.vars), [], LocalLibDir(nmkDir.value), pathExists, ops);
    }
    ok := SetupPath(env, nmkDir.value, ops);
    if !ok {
      return;
    }
    if !tmuxReady {
      return false;
    }
    ok := SetupEnvironment(env, nmkDir.value, currentExe);
    if !ok {
      return;
    }
    SetupPreferredEditor(env, found);
  }
}
