/**
 * The first launcher (nmk.rs/src/nmk.rs). Its `setup_path`,
 * `setup_ld_library_path`, `setup_environment` and `dir` are the same code
 * as the second generation's and are modelled in `NmkupEnv`; only the
 * editor choice differs: a set `EDITOR` is never touched, even when that
 * editor is not installed, and when neither `nvim` nor `vim` is found
 * nothing is exported.
 */
module LegacyEnv {
  import opened Common
  import opened ShellEnv

  /** The environment after the first launcher's editor choice. */
  function LegacyPreferredEditor(vars: map<string, string>, found: string -> bool): map<string, string> {
    if EDITOR in vars then vars
    else
      match FirstFound(PREFERRED_EDITORS, found)
      case Some(e) => vars[EDITOR := e]
      case None => vars
  }

  /** The decision table: a set `EDITOR` stays as it is; otherwise `nvim`,
      then `vim`, then nothing. Only `EDITOR` can change, and it is never
      removed. */
  lemma LegacyEditorTable(vars: map<string, string>, found: string -> bool)
    ensures LegacyPreferredEditor(vars, found) ==
      if EDITOR in vars then vars
      else if found("nvim") then vars[EDITOR := "nvim"]
      else if found("vim") then vars[EDITOR := "vim"]
      else vars
    ensures OnlyChanges(vars, LegacyPreferredEditor(vars, found), {EDITOR})
    ensures EDITOR in vars ==> EDITOR in LegacyPreferredEditor(vars, found)
  {
    if EDITOR !in vars && !found("nvim") && !found("vim") {
      assert forall j :: 0 <= j < |PREFERRED_EDITORS| ==> !found(PREFERRED_EDITORS[j]);
    }
  }

  /** `setup_preferred_editor` of the first launcher. */
  method SetupPreferredEditor(env: Environment, found: string -> bool)
    modifies env
    ensures env.vars == LegacyPreferredEditor(old(env.vars), found)
  {
    if env.Get(EDITOR).None? {
      var editors := PREFERRED_EDITORS;
      match FirstFound(editors, found)
      case Some(editor) => env.Set(EDITOR, editor);
      case None =>
    }
  }
}
