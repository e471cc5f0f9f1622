/**
 * How the three launcher generations compare: the editor choice of the
 * first launcher differs from the later two only when `EDITOR` names an
 * editor that is not installed, and the two ways of writing `VIMINIT`
 * agree exactly on paths that need no quoting.
 */
module Generations {
  import opened Common
  import opened ShellEnv
  import NmkEntrypoint
  import NmkupEnv
  import LegacyEnv

  /** With `EDITOR` unset, or naming an installed editor, all generations
      leave the same environment. */
  lemma EditorGenerationsAgree(vars: map<string, string>, found: string -> bool)
    requires EDITOR !in vars || found(vars[EDITOR])
    ensures WithPreferredEditor(vars, found) == LegacyEnv.LegacyPreferredEditor(vars, found)
  {
    PreferredEditorTable(vars, found);
    LegacyEnv.LegacyEditorTable(vars, found);
  }

  /** A set `EDITOR` naming a missing editor is kept by the first launcher
      but replaced or removed by the later ones. */
  lemma EditorGenerationsDiffer(vars: map<string, string>, found: string -> bool)
    requires EDITOR in vars && !found(vars[EDITOR])
    ensures LegacyEnv.LegacyPreferredEditor(vars, found) == vars
    ensures WithPreferredEditor(vars, found) != vars
    ensures var r := WithPreferredEditor(vars, found); EDITOR in r ==> found(r[EDITOR])
  {
    PreferredEditorTable(vars, found);
    LegacyEnv.LegacyEditorTable(vars, found);
    var r := WithPreferredEditor(vars, found);
    if EDITOR in r {
      assert r[EDITOR] != vars[EDITOR];
    } else {
      assert EDITOR in vars;
    }
  }

  /** On a path of safe characters only, quoting (current launcher) and
      space escaping (earlier launchers) give the same `VIMINIT`. */
  lemma VimInitGenerationsAgree(nmkDir: string)
    requires NmkEntrypoint.AllShellSafe(NmkupEnv.InitVimPath(nmkDir))
    ensures NmkEntrypoint.BuildVimInit(PathJoin(nmkDir, "vim")) == NmkupEnv.EscapedVimInit(nmkDir)
  {
    var p := NmkupEnv.InitVimPath(nmkDir);
    NmkEntrypoint.VimInitUnquoted(PathJoin(nmkDir, "vim"));
    forall i | 0 <= i < |p| ensures p[i] != ' ' {
      assert NmkEntrypoint.IsShellSafe(p[i]);
    }
    NmkupEnv.EscapeSpacesPlain(p);
  }

  /** A path with a space and no single quote is single-quoted by the
      current launcher and backslash-escaped by the earlier ones, so the
      values differ right after `source `. */
  lemma VimInitGenerationsDiffer(nmkDir: string, k: nat)
    requires k < |NmkupEnv.InitVimPath(nmkDir)| && NmkupEnv.InitVimPath(nmkDir)[k] == ' '
    requires NmkEntrypoint.NoSingleQuote(NmkupEnv.InitVimPath(nmkDir))
    ensures NmkEntrypoint.BuildVimInit(PathJoin(nmkDir, "vim")) != NmkupEnv.EscapedVimInit(nmkDir)
  {
    var p := NmkupEnv.InitVimPath(nmkDir);
    assert !NmkEntrypoint.IsShellSafe(p[k]);
    NmkEntrypoint.VimInitQuoted(PathJoin(nmkDir, "vim"));
    NmkupEnv.EscapedFirst(p);
    SeventhChar(p, NmkupEnv.EscapeSpaces(p));
  }

  lemma SeventhChar(p: string, escaped: string)
    requires escaped != [] && escaped[0] != '\''
    ensures "source '" + p + "'" != "source " + escaped
  {
    assert ("source '" + p + "'")[7] == '\'';
    assert ("source " + escaped)[7] == escaped[0];
  }
}
