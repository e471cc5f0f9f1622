/**
 * The process environment the nmk launchers prepare before starting zsh or
 * tmux, and the updates the three generations of launcher have in common
 * (nmk/src/bin/nmk/entrypoint.rs, nmkup/src/nmk.rs, nmk.rs/src/nmk.rs).
 *
 * The environment is a map from variable names to values, held by an
 * `Environment` object whose `Set`/`Remove` stand for `set_env` and
 * `env::remove_var`. Whether a program is on the search path (`which::which`)
 * and whether a path exists are given predicates. The `PathVec` helpers
 * (parsing a search-path variable, dropping duplicates and version-manager
 * entries, joining it back) are given functions.
 */
module ShellEnv {
  import opened Common

  const EDITOR: string := "EDITOR"
  const PATH: string := "PATH"
  const LD_LIBRARY_PATH: string := "LD_LIBRARY_PATH"
  const VIMINIT: string := "VIMINIT"
  const ZDOTDIR: string := "ZDOTDIR"

  /** Editors tried after `$EDITOR`, in order. */
  const PREFERRED_EDITORS: seq<string> := ["nvim", "vim"]

  /** The process environment, changed in place by the setup functions. */
  class Environment {
    var vars: map<string, string>

    constructor (vars: map<string, string>)
      ensures this.vars == vars
    {
      this.vars := vars;
    }

    /** `env::var_os`. */
    function Get(key: string): (r: Option<string>)
      reads this
      ensures r.Some? <==> key in vars
      ensures r.Some? ==> r.value == vars[key]
    {
      if key in vars then Some(vars[key]) else None
    }

    /** `set_env` / `env::set_var`. */
    method Set(key: string, value: string)
      modifies this
      ensures vars == old(vars)[key := value]
    {
      vars := vars[key := value];
    }

    /** `env::remove_var`. */
    method Remove(key: string)
      modifies this
      ensures vars == old(vars) - {key}
    {
      vars := vars - {key};
    }
  }

  /** `Path::join` with a relative, separator-free `name`: a separator is
      inserted unless `dir` is empty or already ends with one. */
  function PathJoin(dir: string, name: string): string {
    if dir == [] || EndsWith(dir, "/") then dir + name else dir + "/" + name
  }

  /** The unseen `PathVec` operations of one launcher generation. */
  datatype PathVecOps = PathVecOps(
    parse: string -> seq<string>,          // split a search-path value into entries
    tidy: seq<string> -> seq<string>,      // `unique()` then dropping version-manager entries
    make: seq<string> -> string)           // join entries back into a value

  /** `before` and `after` agree on every variable outside `keys`. */
  ghost predicate OnlyChanges(before: map<string, string>, after: map<string, string>, keys: set<string>) {
    forall k :: k !in keys ==> (k in before <==> k in after) && (k in before ==> before[k] == after[k])
  }

  // ---------------------------------------------------------------------------
  // Preferred editor (current generation and nmkup)

  /** The editors tried in order: `$EDITOR` when set, then `nvim`, then `vim`. */
  function EditorCandidates(vars: map<string, string>): seq<string> {
    (if EDITOR in vars then [vars[EDITOR]] else []) + PREFERRED_EDITORS
  }

  /** The environment after choosing an editor: the first candidate on the
      search path becomes `EDITOR`; when there is none, `EDITOR` is removed. */
  function WithPreferredEditor(vars: map<string, string>, found: string -> bool): map<string, string> {
    match FirstFound(EditorCandidates(vars), found)
    case Some(e) => vars[EDITOR := e]
    case None => vars - {EDITOR}
  }

  /** The decision table of the editor choice: a set `$EDITOR` that is found
      is kept; otherwise `nvim`, then `vim`; with neither, `EDITOR` is gone.
      Nothing but `EDITOR` changes. */
  lemma PreferredEditorTable(vars: map<string, string>, found: string -> bool)
    ensures WithPreferredEditor(vars, found) ==
      if EDITOR in vars && found(vars[EDITOR]) then vars
      else if found("nvim") then vars[EDITOR := "nvim"]
      else if found("vim") then vars[EDITOR := "vim"]
      else vars - {EDITOR}
    ensures OnlyChanges(vars, WithPreferredEditor(vars, found), {EDITOR})
  {
    var c := EditorCandidates(vars);
    if EDITOR in vars {
      assert c == [vars[EDITOR], "nvim", "vim"];
      if !found(vars[EDITOR]) && !found("nvim") && !found("vim") {
        assert forall j :: 0 <= j < |c| ==> !found(c[j]);
      }
    } else {
      assert c == ["nvim", "vim"];
    }
  }

  // ---------------------------------------------------------------------------
  // Search paths

  /** The entries of the search-path variable `key`; none when it is unset. */
  function Entries(vars: map<string, string>, key: string, ops: PathVecOps): seq<string> {
    if key in vars then ops.parse(vars[key]) else []
  }

  /** `PATH` after putting `front` ahead of its old entries and tidying. */
  function WithSearchPath(vars: map<string, string>, front: seq<string>, ops: PathVecOps): map<string, string> {
    vars[PATH := ops.make(ops.tidy(front + Entries(vars, PATH, ops)))]
  }

  /** `LD_LIBRARY_PATH` after putting `dir` ahead of its old entries, which
      happens only when `dir` exists. */
  function WithLibraryPath(vars: map<string, string>, dir: string, pathExists: string -> bool,
                           ops: PathVecOps): map<string, string> {
    if pathExists(dir) then vars[LD_LIBRARY_PATH := ops.make([dir] + Entries(vars, LD_LIBRARY_PATH, ops))]
    else vars
  }

  lemma OnlyChangesTrans(a: map<string, string>, b: map<string, string>, c: map<string, string>,
                         k1: set<string>, k2: set<string>)
    requires OnlyChanges(a, b, k1) && OnlyChanges(b, c, k2)
    ensures OnlyChanges(a, c, k1 + k2)
  {
  }

  /** The search-path updates change nothing but their own variable. */
  lemma PathUpdatesOnlyChange(vars: map<string, string>, front: seq<string>, dir: string,
                              pathExists: string -> bool, ops: PathVecOps)
    ensures OnlyChanges(vars, WithSearchPath(vars, front, ops), {PATH})
    ensures OnlyChanges(vars, WithLibraryPath(vars, dir, pathExists, ops), {LD_LIBRARY_PATH})
  {
  }

  /** When the entries read back what was written, the new `PATH` holds
      `front` and then the old entries, tidied. */
  lemma SearchPathPrepends(vars: map<string, string>, front: seq<string>, ops: PathVecOps)
    requires forall xs :: ops.parse(ops.make(xs)) == xs
    ensures var after := WithSearchPath(vars, front, ops);
      PATH in after && ops.parse(after[PATH]) == ops.tidy(front + Entries(vars, PATH, ops))
  {
  }

  /** A missing `dir` leaves the environment alone; an existing one becomes
      the first library-path entry, ahead of the old entries in their order. */
  lemma LibraryPathPrepends(vars: map<string, string>, dir: string, pathExists: string -> bool, ops: PathVecOps)
    requires forall xs :: ops.parse(ops.make(xs)) == xs
    ensures var after := WithLibraryPath(vars, dir, pathExists, ops);
      (!pathExists(dir) ==> after == vars)
      && (pathExists(dir) ==>
            LD_LIBRARY_PATH in after
            && ops.parse(after[LD_LIBRARY_PATH]) == [dir] + Entries(vars, LD_LIBRARY_PATH, ops))
  {
  }
}
