/**
 * The tmux configuration renderer (nmk/src/nmk/tmux/config.rs).
 *
 * `render` streams the configuration for one tmux version into a writer, one
 * `write!`/`writeln!` call at a time, and gives up at the first failing write.
 * The model keeps that shape. Each formatting call is a `Line`: the format
 * string with its arguments, whose text `Text` spells out. A `Writer` object
 * records the calls it accepted (its text is `Rendered` of them) and how many
 * write calls it received, and can be set up to fail on one call. Every rendering method is proved against a
 * specification function listing the lines it writes; `Emit` says what a
 * writer ends up holding after a list of lines is written with early exit on
 * error.
 */
module TmuxConfig {
  import opened Common

  // ---------------------------------------------------------------------------
  // Versions

  /** The tmux versions the renderer distinguishes, in release order. */
  datatype Version = V21 | V22 | V23 | V24 | V25 | V26 | V27 | V28 | V29 | V30 | V31 | V32

  function Rank(v: Version): nat {
    match v
    case V21 => 0 case V22 => 1 case V23 => 2 case V24 => 3
    case V25 => 4 case V26 => 5 case V27 => 6 case V28 => 7
    case V29 => 8 case V30 => 9 case V31 => 10 case V32 => 11
  }

  /** `v >= w` in release order. */
  predicate AtLeast(v: Version, w: Version) {
    Rank(v) >= Rank(w)
  }

  /** `Version::as_str`. */
  function VersionStr(v: Version): string {
    match v
    case V21 => "2.1" case V22 => "2.2" case V23 => "2.3" case V24 => "2.4"
    case V25 => "2.5" case V26 => "2.6" case V27 => "2.7" case V28 => "2.8"
    case V29 => "2.9" case V30 => "3.0" case V31 => "3.1" case V32 => "3.2"
  }

  // ---------------------------------------------------------------------------
  // Formatting helpers

  /** `choose_tree`: `choose-tree`, then `-s` from 2.6 on, then `-Z` from 2.7
      on, joined with spaces. */
  function ChooseTree(v: Version): string {
    Join(" ", ["choose-tree"] + (if AtLeast(v, V26) then ["-s"] else [])
                              + (if AtLeast(v, V27) then ["-Z"] else []))
  }

  /** The three forms the command takes: ` -s` is there exactly from 2.6 on
      and ` -Z` exactly from 2.7 on, always after ` -s`. */
  lemma ChooseTreeFlags(v: Version)
    ensures ChooseTree(v) == "choose-tree" + (if AtLeast(v, V26) then " -s" else "")
                                           + (if AtLeast(v, V27) then " -Z" else "")
  {
    if AtLeast(v, V27) {
      assert ["choose-tree"] + ["-s"] + ["-Z"] == ["choose-tree", "-s", "-Z"];
      assert Join(" ", ["-Z"]) == "-Z";
      assert Join(" ", ["-s", "-Z"]) == "-s -Z";
    } else if AtLeast(v, V26) {
      assert ["choose-tree"] + ["-s"] + [] == ["choose-tree", "-s"];
      assert Join(" ", ["-s"]) == "-s";
    } else {
      assert ["choose-tree"] + [] + [] == ["choose-tree"];
    }
  }

  /** Rust `format!("{:<fill>^<width>}", s)`: `s` centred in `width` columns. */
  function Center(s: string, width: nat, fill: char): string {
    if |s| >= width then s
    else
      var p := width - |s|;
      Repeat(fill, p / 2) + s + Repeat(fill, p - p / 2)
  }

  /** A string at least as wide as the field is left alone; otherwise the
      result is exactly `width` wide, holds `s` in the middle, and of the
      padding the left gets half rounded down and the right the rest. */
  lemma CenterShape(s: string, width: nat, fill: char)
    ensures var r := Center(s, width, fill);
            && (|s| >= width ==> r == s)
            && (|s| < width ==>
                  var left := (width - |s|) / 2;
                  && |r| == width
                  && r[left..left + |s|] == s
                  && (forall i :: 0 <= i < left ==> r[i] == fill)
                  && (forall i :: left + |s| <= i < width ==> r[i] == fill)
                  && width - (left + |s|) == (width - |s|) - (width - |s|) / 2)
  {
    if |s| < width {
      var p := width - |s|;
      var r := Center(s, width, fill);
      assert r == Repeat(fill, p / 2) + s + Repeat(fill, p - p / 2);
      assert r[p / 2..p / 2 + |s|] == s;
    }
  }

  /** `# ` and the label centred in 100 columns with `-` fill, as
      `write_start_section` and `write_end_section` print it. */
  function Banner(title: string): string {
    "# " + Center(title, 100, '-') + "\n"
  }

  const TABLE: string := "F12"
  const COPY_MODE: string := "copy-mode -u"
  const COPY_MODE_BOTTOM_EXIT: string := "copy-mode -eu"
  const CWD: string := "#{pane_current_path}"
  const NEXT_PANE: string := @"select-pane -t :.+ \; display-panes"
  const NO_ENTER_COPY_MODE: string := "#{?pane_in_mode,1,}#{?alternate_on,1,}"
  const LAST_SESSION: string := "switch-client -l"

  /** The option block `render_options` writes in one call, dedented. */
  const OPTIONS: string :=
    "set-option -g base-index 0\n"
    + "set-option -g default-shell \"$NMK_TMUX_DEFAULT_SHELL\"\n"
    + "set-option -g default-terminal \"$NMK_TMUX_DEFAULT_TERMINAL\"\n"
    + "set-option -g detach-on-destroy \"$NMK_TMUX_DETACH_ON_DESTROY\"\n"
    + "set-option -g display-time 1200\n"
    + "set-option -g history-file \"$NMK_TMUX_HISTORY\"\n"
    + "set-option -g history-limit 2500\n"
    + "set-option -g status-keys emacs\n"
    + "set-option -g status-left-length 20\n"
    + "set-option -g status-right-length 60\n"
    + "set-option -g status-right \"#{?client_prefix,^B ,}'#[fg=colour51]#{=40:pane_title}#[default]' %H:%M %Z %a, %d\"\n"
    + "set-window-option -g mode-keys vi\n"

  // ---------------------------------------------------------------------------
  // What is written

  /** The formatting calls that take no arguments, named after what they
      bind or set. */
  datatype FixedLine =
    | OptionBlock
    | UnbindPrefix | SendPrefix | PrefixNextPane
    | CommandPrompt | LastSessionKey | DisplayTty
    | F1NextPane | F2LastWindow | F3PreviousWindow | F4NextWindow | F5Zoom | F8NextClient
    | F12SendKeys | F12EnterTable | F12Detach | F12NextLayout
    | CopyModeKey | WheelUpHead | WheelUpTail | PageUpKey
    | ColorScheme

  /** The text of a call without arguments: a `writeln!` line ends in a
      newline; the two `write!` calls (the option block, which ends in one
      already, and the first half of the wheel binding) add none. */
  function FixedText(f: FixedLine): string {
    match f
    case OptionBlock => OPTIONS
    case UnbindPrefix => "unbind-key C-b\n"
    case SendPrefix => "bind-key -r C-b send-prefix\n"
    case PrefixNextPane => "bind-key -r b " + NEXT_PANE + "\n"
    case CommandPrompt => "bind-key C-c command-prompt\n"
    case LastSessionKey => "bind-key C-l " + LAST_SESSION + "\n"
    case DisplayTty => "bind-key C-t display-message '#{pane_tty}'\n"
    case F1NextPane => "bind-key -n F1 " + NEXT_PANE + "\n"
    case F2LastWindow => "bind-key -n F2 last-window\n"
    case F3PreviousWindow => "bind-key -n F3 previous-window\n"
    case F4NextWindow => "bind-key -n F4 next-window\n"
    case F5Zoom => "bind-key -n F5 resize-pane -Z\n"
    case F8NextClient => "bind-key -n F8 switch-client -n\n"
    case F12SendKeys => "bind-key F12 send-keys F12\n"
    case F12EnterTable => "bind-key -n F12 switch-client -T " + TABLE + "\n"
    case F12Detach => "bind-key -T " + TABLE + " F12 detach-client\n"
    case F12NextLayout => "bind-key -T " + TABLE + " -r Space next-layout\n"
    case CopyModeKey => "bind-key C-u " + COPY_MODE + "\n"
    case WheelUpHead => "bind-key -T root WheelUpPane if-shell -F \"#{mouse_any_flag}\" \"send-keys -M\" \"if-shell -F "
    case WheelUpTail => "'" + NO_ENTER_COPY_MODE + "' 'send-keys -M' '" + COPY_MODE_BOTTOM_EXIT + "'\"\n"
    case PageUpKey =>
      "bind-key -T root PageUp if-shell -F \"" + NO_ENTER_COPY_MODE + "\" \"send-keys PageUp\" \""
      + COPY_MODE_BOTTOM_EXIT + "\"\n"
    case ColorScheme =>
      "if-shell '[ x$NMK_TMUX_256_COLOR = x1 ]' 'source-file $NMK_HOME/tmux/256color.conf' 'source-file $NMK_HOME/tmux/8color.conf'\n"
  }

  /** The three counted `for n in 1..=N` loops. */
  datatype Counted = SendKeys | TableKeys | WindowKeys

  /** The two loops over key/command pairs: `pane_current_path` and
      `half_pageup_pagedown`. */
  datatype KeyMode = PanePathKeys | CopyModeVi

  /** One formatting call: the format string with its arguments. */
  datatype Line =
    | Header(v: Version)                         // `# tmux {} configuration`
    | SectionStart(name: string)                 // `# {:-^100}` of ` start {} `
    | SectionEnd(name: string)                   // `# {:-^100}` of ` end {} `
    | Fixed(f: FixedLine)                        // a call without arguments
    | ChooseTreeKey(v: Version)                  // `bind-key -n F6 {}`
    | Numbered(kind: Counted, n: nat)            // a line of a counted loop
    | Unbind(mode: KeyMode, key: string)
    | Bind(mode: KeyMode, key: string, binding: string)
    | NewSession                                 // the new-session prompt
    | Clipboard                                  // `copy_to_system_clipboard`
    | Unset(env: string)                         // `set-environment -gr {}`

  /** The text a formatting call produces. */
  function Text(l: Line): string {
    match l
    case Header(v) => "# tmux " + VersionStr(v) + " configuration\n"
    case SectionStart(name) => Banner(" start " + name + " ")
    case SectionEnd(name) => Banner(" end " + name + " ")
    case Fixed(f) => FixedText(f)
    case ChooseTreeKey(v) => "bind-key -n F6 " + ChooseTree(v) + "\n"
    case Numbered(kind, n) =>
      (match kind
       case SendKeys => "bind-key -n S-F" + Decimal(n) + " send-keys F" + Decimal(n)
       case TableKeys => "bind-key -T " + TABLE + " F" + Decimal(n) + " send-keys F" + Decimal(n)
       case WindowKeys => "bind-key -T " + TABLE + " " + Decimal(n) + " select-window -t " + Decimal(n))
      + "\n"
    case Unbind(mode, key) =>
      (match mode
       case PanePathKeys => "unbind-key " + key
       case CopyModeVi => "unbind-key -T copy-mode-vi " + key)
      + "\n"
    case Bind(mode, key, binding) =>
      (match mode
       case PanePathKeys => "bind-key " + key + " " + binding + " -c '" + CWD + "'"
       case CopyModeVi => "bind-key -T copy-mode-vi " + key + " send-keys -X " + binding)
      + "\n"
    case NewSession => "bind-key C command-prompt \"new-session -c '" + CWD + "' -s '%%'\"\n"
    case Clipboard =>
      "if-shell 'xclip -o > /dev/null 2>&1' "
      + "'bind-key -T copy-mode-vi y send-keys -X copy-pipe-and-cancel \"xclip -selection clipboard\"'\n"
    case Unset(env) => "set-environment -gr " + env + "\n"
  }

  /** The text of a list of lines, one after the other. */
  function Rendered(lines: seq<Line>): string {
    ConcatMap(Text, lines)
  }

  /** The last `n` of each counted loop: `1..=12`, `1..=11` and `1..=9`. */
  function Last(kind: Counted): nat {
    match kind
    case SendKeys => 12
    case TableKeys => 11
    case WindowKeys => 9
  }

  /** The lines a counted loop writes. */
  function Loop(kind: Counted): seq<Line> {
    Run(kind, 1, Last(kind))
  }

  /** Lines `lo` to `hi` of a counted loop. */
  function Run(kind: Counted, lo: nat, hi: nat): seq<Line>
    decreases hi + 1 - lo
  {
    if lo > hi then [] else [Numbered(kind, lo)] + Run(kind, lo + 1, hi)
  }

  /** A counted loop from `lo` to `hi` writes `hi - lo + 1` lines, the
      `i`-th of them for `lo + i`. */
  lemma {:induction false} RunShape(kind: Counted, lo: nat, hi: nat)
    ensures lo <= hi + 1 ==> |Run(kind, lo, hi)| == hi + 1 - lo
    ensures forall i :: 0 <= i < |Run(kind, lo, hi)| ==> Run(kind, lo, hi)[i] == Numbered(kind, lo + i)
    decreases hi + 1 - lo
  {
    if lo <= hi {
      RunShape(kind, lo + 1, hi);
    }
  }

  /** An `unbind-key` line, then a `bind-key` line, for every pair. */
  function PairLines(mode: KeyMode, keys: seq<(string, string)>): seq<Line> {
    if keys == [] then []
    else [Unbind(mode, keys[0].0), Bind(mode, keys[0].0, keys[0].1)] + PairLines(mode, keys[1..])
  }

  /** Every key is unbound on the line immediately before the one binding
      it, in the order of the pairs, and nothing else is written. */
  lemma {:induction false} PairLinesShape(mode: KeyMode, keys: seq<(string, string)>)
    ensures |PairLines(mode, keys)| == 2 * |keys|
    ensures forall j :: 0 <= j < |keys| ==>
              && PairLines(mode, keys)[2 * j] == Unbind(mode, keys[j].0)
              && PairLines(mode, keys)[2 * j + 1] == Bind(mode, keys[j].0, keys[j].1)
  {
    if keys != [] {
      PairLinesShape(mode, keys[1..]);
      var rest := PairLines(mode, keys[1..]);
      assert PairLines(mode, keys) == [Unbind(mode, keys[0].0), Bind(mode, keys[0].0, keys[0].1)] + rest;
      forall j | 1 <= j < |keys|
        ensures PairLines(mode, keys)[2 * j] == Unbind(mode, keys[j].0)
        ensures PairLines(mode, keys)[2 * j + 1] == Bind(mode, keys[j].0, keys[j].1)
      {
        assert PairLines(mode, keys)[2 * j] == rest[2 * (j - 1)];
        assert PairLines(mode, keys)[2 * j + 1] == rest[2 * (j - 1) + 1];
        assert keys[1..][j - 1] == keys[j];
      }
    }
  }

  /** A `set-environment -gr` line for every variable. */
  function UnsetLines(envs: seq<string>): seq<Line> {
    if envs == [] then [] else [Unset(envs[0])] + UnsetLines(envs[1..])
  }

  lemma {:induction false} UnsetLinesShape(envs: seq<string>)
    ensures |UnsetLines(envs)| == |envs|
    ensures forall i :: 0 <= i < |envs| ==> UnsetLines(envs)[i] == Unset(envs[i])
  {
    if envs != [] {
      UnsetLinesShape(envs[1..]);
      forall i | 1 <= i < |envs|
        ensures UnsetLines(envs)[i] == Unset(envs[i])
      {
        assert UnsetLines(envs)[i] == UnsetLines(envs[1..])[i - 1];
      }
    }
  }

  /** The variables the configuration removes from the global environment. */
  function TmuxEnvs(): seq<string> {
    ["NMK_TMUX_256_COLOR", "NMK_TMUX_DEFAULT_SHELL", "NMK_TMUX_DEFAULT_TERMINAL",
     "NMK_TMUX_DETACH_ON_DESTROY", "NMK_TMUX_HISTORY"]
  }

  /** The keys `pane_current_path` rebinds, with their commands. */
  function PaneKeys(): seq<(string, string)> {
    [("%", "split-window -h "), ("|", "split-window -h "), ("_", "split-window"),
     ("c", "new-window"), ("'\"'", "split-window")]
  }

  function HalfPageKeys(): seq<(string, string)> {
    [("PageUp", "halfpage-up"), ("PageDown", "halfpage-down")]
  }

  const PREFIX_KEY_LINES: seq<Line> := [Fixed(UnbindPrefix), Fixed(SendPrefix), Fixed(PrefixNextPane)]

  /** The three bindings `render` writes between the prefix-key and the
      function-key sections. */
  const MISC_KEY_LINES: seq<Line> := [Fixed(CommandPrompt), Fixed(LastSessionKey), Fixed(DisplayTty)]

  /** The function keys bound one by one, before the `S-F{n}` loop. */
  const NAVIGATION_KEYS: seq<Line> :=
    [ Fixed(F1NextPane), Fixed(F2LastWindow), Fixed(F3PreviousWindow), Fixed(F4NextWindow), Fixed(F5Zoom) ]

  function FunctionKeyHead(v: Version): seq<Line> {
    NAVIGATION_KEYS + [ChooseTreeKey(v), Fixed(F8NextClient)]
  }

  function FunctionKeyLines(v: Version): seq<Line> {
    FunctionKeyHead(v) + Loop(SendKeys)
  }

  function F12TableLines(): seq<Line> {
    [Fixed(F12SendKeys), Fixed(F12EnterTable)]
    + Loop(TableKeys)
    + [Fixed(F12Detach), Fixed(F12NextLayout)]
    + Loop(WindowKeys)
  }

  function PaneCurrentPathLines(): seq<Line> {
    PairLines(PanePathKeys, PaneKeys()) + [NewSession]
  }

  /** The copy-mode bindings written before `half_pageup_pagedown`. */
  const COPY_MODE_HEAD: seq<Line> :=
    [Fixed(CopyModeKey), Clipboard, Fixed(WheelUpHead), Fixed(WheelUpTail), Fixed(PageUpKey)]

  function CopyModeLines(): seq<Line> {
    COPY_MODE_HEAD + PairLines(CopyModeVi, HalfPageKeys())
  }

  /** The section bodies `render` passes to `section`. */
  datatype Body = Options | PrefixKeys | FunctionKeys | F12Table | PanePath | CopyMode | UnsetEnvs

  function BodyName(b: Body): string {
    match b
    case Options => "tmux options"
    case PrefixKeys => "prefix keys"
    case FunctionKeys => "function key binding"
    case F12Table => "F12 Key table"
    case PanePath => "Pane current path"
    case CopyMode => "Copy mode"
    case UnsetEnvs => "Unset tmux environments"
  }

  function BodyLines(v: Version, b: Body): seq<Line> {
    match b
    case Options => [Fixed(OptionBlock)]
    case PrefixKeys => PREFIX_KEY_LINES
    case FunctionKeys => FunctionKeyLines(v)
    case F12Table => F12TableLines()
    case PanePath => PaneCurrentPathLines()
    case CopyMode => CopyModeLines()
    case UnsetEnvs => UnsetLines(TmuxEnvs())
  }

  /** `section`: the start banner, the body, the end banner. */
  function SectionLines(v: Version, b: Body): seq<Line> {
    [SectionStart(BodyName(b))] + BodyLines(v, b) + [SectionEnd(BodyName(b))]
  }

  /** Concatenation of a list of parts. */
  function Flatten(parts: seq<seq<Line>>): seq<Line> {
    if parts == [] then [] else parts[0] + Flatten(parts[1..])
  }

  /** The configuration, part by part, as `render` writes it, in three
      groups: the header and settings, the key tables, the rest. */
  function HeadParts(v: Version): seq<seq<Line>> {
    [ [Header(v)], SectionLines(v, Options), SectionLines(v, PrefixKeys), MISC_KEY_LINES ]
  }

  function KeyParts(v: Version): seq<seq<Line>> {
    [ SectionLines(v, FunctionKeys), SectionLines(v, F12Table), SectionLines(v, PanePath) ]
  }

  function TailParts(v: Version): seq<seq<Line>> {
    [ SectionLines(v, CopyMode), [Fixed(ColorScheme)], SectionLines(v, UnsetEnvs) ]
  }

  /** Every line `render` writes, in order. */
  function ConfigLines(v: Version): seq<Line> {
    Flatten(HeadParts(v)) + Flatten(KeyParts(v)) + Flatten(TailParts(v))
  }

  /** The configuration text for version `v`. */
  function Config(v: Version): string {
    Rendered(ConfigLines(v))
  }

  // ---------------------------------------------------------------------------
  // Properties of the configuration

  /** The text starts with `# tmux <version> configuration` on a line of its
      own. */
  lemma ConfigStartsWithHeader(v: Version)
    ensures ConfigLines(v)[0] == Header(v)
    ensures "# tmux " + VersionStr(v) + " configuration\n" <= Config(v)
  {
    var lines := ConfigLines(v);
    assert lines == [Header(v)] + Flatten(HeadParts(v)[1..]) + Flatten(KeyParts(v)) + Flatten(TailParts(v));
    assert Rendered(lines) == Text(Header(v)) + Rendered(lines[1..]);
  }

  /** A banner for a label shorter than the field is `# `, then `p / 2`
      dashes, the label, `p - p / 2` dashes and a newline, where
      `p = 100 - |label|`. */
  lemma BannerLayout(title: string)
    requires |title| < 100
    ensures var p := 100 - |title|;
            var b := Banner(title);
            && |b| == 103
            && b[..2] == "# "
            && b[2 + p / 2..2 + p / 2 + |title|] == title
            && (forall i :: 2 <= i < 2 + p / 2 ==> b[i] == '-')
            && (forall i :: 2 + p / 2 + |title| <= i < 102 ==> b[i] == '-')
            && b[102] == '\n'
  {
    CenterShape(title, 100, '-');
    Framed(Center(title, 100, '-'), title, (100 - |title|) / 2);
  }

  /** A centred field framed as a banner line: what holds of the field
      holds two columns further right. */
  lemma Framed(c: string, title: string, left: nat)
    requires |c| == 100 && left + |title| <= 100
    requires c[left..left + |title|] == title
    requires forall i :: 0 <= i < left ==> c[i] == '-'
    requires forall i :: left + |title| <= i < 100 ==> c[i] == '-'
    ensures var b := "# " + c + "\n";
            && |b| == 103
            && b[..2] == "# "
            && b[2 + left..2 + left + |title|] == title
            && (forall i :: 2 <= i < 2 + left ==> b[i] == '-')
            && (forall i :: 2 + left + |title| <= i < 102 ==> b[i] == '-')
            && b[102] == '\n'
  {
    var b := "# " + c + "\n";
    assert b[2 + left..2 + left + |title|] == c[left..left + |title|];
    forall i | 2 <= i < 102
      ensures b[i] == c[i - 2]
    {
    }
  }

  /** The function-key section body: seven fixed bindings with `choose-tree`
      on F6, then exactly twelve `S-F<n>` lines for `n` from 1 to 12 in order. */
  lemma FunctionKeyShape(v: Version)
    ensures |FunctionKeyLines(v)| == 19
    ensures FunctionKeyLines(v)[5] == ChooseTreeKey(v)
    ensures forall i :: 7 <= i < 19 ==> FunctionKeyLines(v)[i] == Numbered(SendKeys, i - 6)
    ensures forall i :: 0 <= i < 7 ==> !FunctionKeyLines(v)[i].Numbered?
  {
    RunShape(SendKeys, 1, 12);
  }

  /** The F12 key table: two entry bindings, `F1`…`F11` sending themselves,
      `F12` detaching, `Space` cycling layouts, and `1`…`9` selecting windows. */
  lemma F12TableShape()
    ensures |F12TableLines()| == 24
    ensures forall i :: 2 <= i < 13 ==> F12TableLines()[i] == Numbered(TableKeys, i - 1)
    ensures F12TableLines()[13] == Fixed(F12Detach)
    ensures forall i :: 15 <= i < 24 ==> F12TableLines()[i] == Numbered(WindowKeys, i - 14)
  {
    RunShape(TableKeys, 1, 11);
    RunShape(WindowKeys, 1, 9);
  }

  /** Each of the five pane-path keys is unbound and then bound to open in
      the pane's directory; then comes the new-session prompt. */
  lemma PanePathShape()
    ensures |PaneCurrentPathLines()| == 11
    ensures forall j :: 0 <= j < 5 ==>
              && PaneCurrentPathLines()[2 * j] == Unbind(PanePathKeys, PaneKeys()[j].0)
              && PaneCurrentPathLines()[2 * j + 1] == Bind(PanePathKeys, PaneKeys()[j].0, PaneKeys()[j].1)
    ensures PaneCurrentPathLines()[10] == NewSession
  {
    PairLinesShape(PanePathKeys, PaneKeys());
  }

  /** Exactly the five `NMK_TMUX_*` variables are unset, in the listed order. */
  lemma UnsetEnvShape()
    ensures |UnsetLines(TmuxEnvs())| == 5
    ensures forall i :: 0 <= i < 5 ==> UnsetLines(TmuxEnvs())[i] == Unset(TmuxEnvs()[i])
  {
    UnsetLinesShape(TmuxEnvs());
  }

  // ---------------------------------------------------------------------------
  // Writing with early exit

  /** A writer's state: the formatting calls it accepted, the number of
      write calls it received, and whether the last of them succeeded. */
  datatype Written = Written(log: seq<Line>, calls: nat, ok: bool)

  /** Writes `lines` one call each, starting from `log` after `calls` calls,
      to a writer whose call number `failAt` fails; stops at the first
      failure, like a chain of `?`. */
  function Emit(log: seq<Line>, calls: nat, failAt: nat, lines: seq<Line>): Written
    decreases |lines|
  {
    if lines == [] then Written(log, calls, true)
    else if calls == failAt then Written(log, calls + 1, false)
    else Emit(log + [lines[0]], calls + 1, failAt, lines[1..])
  }

  /** What early exit means: the output fails exactly when the failing call is
      one of the calls made for `lines`; then nothing is written from that call
      on and no further call is made. Otherwise everything is written. */
  lemma {:induction false} EmitClosedForm(log: seq<Line>, calls: nat, failAt: nat, lines: seq<Line>)
    ensures var r := Emit(log, calls, failAt, lines);
            && (r.ok <==> !(calls <= failAt < calls + |lines|))
            && (r.ok ==> r.log == log + lines && r.calls == calls + |lines|)
            && (!r.ok ==> r.calls == failAt + 1 && r.log == log + lines[..failAt - calls])
    decreases |lines|
  {
    if lines != [] && calls != failAt {
      EmitClosedForm(log + [lines[0]], calls + 1, failAt, lines[1..]);
      if calls + 1 <= failAt < calls + |lines| {
        assert lines[..failAt - calls] == [lines[0]] + lines[1..][..failAt - calls - 1];
      } else {
        assert lines == [lines[0]] + lines[1..];
      }
    } else if lines != [] {
      assert lines[..0] == [];
    }
  }

  /** Writing `a` then `b` is writing `a + b`; after a failure in `a`, `b`
      is never written. */
  lemma {:induction false} EmitAppend(log: seq<Line>, calls: nat, failAt: nat, a: seq<Line>, b: seq<Line>)
    ensures Emit(log, calls, failAt, a + b) ==
              var r := Emit(log, calls, failAt, a);
              if r.ok then Emit(r.log, r.calls, failAt, b) else r
    decreases |a|
  {
    if a == [] {
      assert a + b == b;
    } else if calls != failAt {
      assert (a + b)[1..] == a[1..] + b;
      EmitAppend(log + [a[0]], calls + 1, failAt, a[1..], b);
    }
  }

  /** Writing a run of parts is writing the first and, if that succeeded,
      the rest from where it left off. */
  lemma Peel(log: seq<Line>, calls: nat, failAt: nat, parts: seq<seq<Line>>, r: Written)
    requires parts != []
    requires r == Emit(log, calls, failAt, parts[0])
    ensures Emit(log, calls, failAt, Flatten(parts)) ==
              if r.ok then Emit(r.log, r.calls, failAt, Flatten(parts[1..])) else r
  {
    EmitAppend(log, calls, failAt, parts[0], Flatten(parts[1..]));
  }

  /** The `&mut dyn Write` the configuration is rendered into. It records
      every formatting call it accepts; `Output` is the text it received.
      Write call number `failAt` (counting from 0) fails; the others
      succeed. */
  class Writer {
    var log: seq<Line>
    var calls: nat
    const failAt: nat

    constructor (failAt: nat)
      ensures log == [] && calls == 0 && this.failAt == failAt
    {
      log := [];
      calls := 0;
      this.failAt := failAt;
    }

    ghost function Output(): string
      reads this
    {
      Rendered(log)
    }

    /** One `write!`/`writeln!` call. */
    method Write(l: Line) returns (ok: bool)
      modifies this
      ensures calls == old(calls) + 1
      ensures ok <==> old(calls) != failAt
      ensures log == if ok then old(log) + [l] else old(log)
      ensures Written(log, calls, ok) == Emit(old(log), old(calls), failAt, [l])
    {
      ok := calls != failAt;
      if ok {
        log := log + [l];
      }
      calls := calls + 1;
    }
  }

  /** What a successful write adds to the text. */
  lemma WriteOutput(log: seq<Line>, l: Line)
    ensures Rendered(log + [l]) == Rendered(log) + Text(l)
  {
    ConcatMapAppend(Text, log, [l]);
    assert ConcatMap(Text, [l]) == Text(l) + ConcatMap(Text, []);
  }

  // ---------------------------------------------------------------------------
  // The renderer

  /** A `for n in 1..=N` loop writing one line per `n`. */
  method WriteLoop(w: Writer, kind: Counted) returns (ok: bool)
    modifies w
    ensures Written(w.log, w.calls, ok) == Emit(old(w.log), old(w.calls), w.failAt, Loop(kind))
  {
    var last := Last(kind);
    ghost var goal := Emit(w.log, w.calls, w.failAt, Run(kind, 1, last));
    var n := 1;
    while n <= last
      invariant 1 <= n <= last + 1
      invariant goal == Emit(w.log, w.calls, w.failAt, Run(kind, n, last))
      decreases last + 1 - n
    {
      ghost var log, c := w.log, w.calls;
      ok := w.Write(Numbered(kind, n));
      EmitAppend(log, c, w.failAt, [Numbered(kind, n)], Run(kind, n + 1, last));
      if !ok {
        return;
      }
      n := n + 1;
    }
    return true;
  }

  /** The loops of `pane_current_path` and `half_pageup_pagedown`:
      `unbind-key` then `bind-key` for every pair, stopping at an error. */
  method WritePairs(w: Writer, mode: KeyMode, keys: seq<(string, string)>) returns (ok: bool)
    modifies w
    ensures Written(w.log, w.calls, ok) == Emit(old(w.log), old(w.calls), w.failAt, PairLines(mode, keys))
  {
    ghost var goal := Emit(w.log, w.calls, w.failAt, PairLines(mode, keys));
    var i := 0;
    while i < |keys|
      invariant 0 <= i <= |keys|
      invariant goal == Emit(w.log, w.calls, w.failAt, PairLines(mode, keys[i..]))
    {
      var (key, binding) := keys[i];
      ghost var rest := PairLines(mode, keys[i + 1..]);
      assert keys[i..][1..] == keys[i + 1..];
      assert PairLines(mode, keys[i..]) == [Unbind(mode, key)] + ([Bind(mode, key, binding)] + rest);
      ghost var log, c := w.log, w.calls;
      ok := w.Write(Unbind(mode, key));
      EmitAppend(log, c, w.failAt, [Unbind(mode, key)], [Bind(mode, key, binding)] + rest);
      if !ok {
        return;
      }
      log, c := w.log, w.calls;
      ok := w.Write(Bind(mode, key, binding));
      EmitAppend(log, c, w.failAt, [Bind(mode, key, binding)], rest);
      if !ok {
        return;
      }
      i := i + 1;
    }
    return true;
  }

  /** `pane_current_path`. */
  method PaneCurrentPath(w: Writer) returns (ok: bool)
    modifies w
    ensures Written(w.log, w.calls, ok) == Emit(old(w.log), old(w.calls), w.failAt, PaneCurrentPathLines())
  {
    ghost var log, c := w.log, w.calls;
    ok := WritePairs(w, PanePathKeys, PaneKeys());
    EmitAppend(log, c, w.failAt, PairLines(PanePathKeys, PaneKeys()), [NewSession]);
    if !ok {
      return;
    }
    ok := w.Write(NewSession);
  }

  /** `half_pageup_pagedown`. */
  method HalfPageUpPageDown(w: Writer) returns (ok: bool)
    modifies w
    ensures Written(w.log, w.calls, ok) == Emit(old(w.log), old(w.calls), w.failAt, PairLines(CopyModeVi, HalfPageKeys()))
  {
    ok := WritePairs(w, CopyModeVi, HalfPageKeys());
  }

  /** `unset_tmux_envs`. */
  method UnsetTmuxEnvs(w: Writer) returns (ok: bool)
    modifies w
    ensures Written(w.log, w.calls, ok) == Emit(old(w.log), old(w.calls), w.failAt, UnsetLines(TmuxEnvs()))
  {
    var envs := TmuxEnvs();
    ghost var goal := Emit(w.log, w.calls, w.failAt, UnsetLines(envs));
    var i := 0;
    while i < |envs|
      invariant 0 <= i <= |envs|
      invariant goal == Emit(w.log, w.calls, w.failAt, UnsetLines(envs[i..]))
    {
      assert envs[i..][1..] == envs[i + 1..];
      ghost var log, c := w.log, w.calls;
      ok := w.Write(Unset(envs[i]));
      EmitAppend(log, c, w.failAt, [Unset(envs[i])], UnsetLines(envs[i + 1..]));
      if !ok {
        return;
      }
      i := i + 1;
    }
    return true;
  }

  /** The prefix-key section body: three `writeln!` calls. */
  method WritePrefixKeys(w: Writer) returns (ok: bool)
    modifies w
    ensures Written(w.log, w.calls, ok) == Emit(old(w.log), old(w.calls), w.failAt, PREFIX_KEY_LINES)
  {
    ok := w.Write(Fixed(UnbindPrefix));
    if !ok { return; }
    ok := w.Write(Fixed(SendPrefix));
    if !ok { return; }
    ok := w.Write(Fixed(PrefixNextPane));
  }

  /** The three bindings `render` writes between two sections. */
  method WriteMiscKeys(w: Writer) returns (ok: bool)
    modifies w
    ensures Written(w.log, w.calls, ok) == Emit(old(w.log), old(w.calls), w.failAt, MISC_KEY_LINES)
  {
    ok := w.Write(Fixed(CommandPrompt));
    if !ok { return; }
    ok := w.Write(Fixed(LastSessionKey));
    if !ok { return; }
    ok := w.Write(Fixed(DisplayTty));
  }

  /** F1 to F5, the pane and window navigation keys. */
  method WriteNavigationKeys(w: Writer) returns (ok: bool)
    modifies w
    ensures Written(w.log, w.calls, ok) == Emit(old(w.log), old(w.calls), w.failAt, NAVIGATION_KEYS)
  {
    ghost var first, rest := [Fixed(F1NextPane), Fixed(F2LastWindow)], [Fixed(F3PreviousWindow)];
    ghost var last := [Fixed(F4NextWindow), Fixed(F5Zoom)];
    assert NAVIGATION_KEYS == first + (rest + last);
    EmitAppend(w.log, w.calls, w.failAt, first, rest + last);
    ok := w.Write(Fixed(F1NextPane));
    if !ok { return; }
    ok := w.Write(Fixed(F2LastWindow));
    if !ok { return; }
    EmitAppend(w.log, w.calls, w.failAt, rest, last);
    ok := w.Write(Fixed(F3PreviousWindow));
    if !ok { return; }
    ok := w.Write(Fixed(F4NextWindow));
    if !ok { return; }
    ok := w.Write(Fixed(F5Zoom));
  }

  /** The body of the function-key section. */
  method WriteFunctionKeys(w: Writer, v: Version) returns (ok: bool)
    modifies w
    ensures Written(w.log, w.calls, ok) == Emit(old(w.log), old(w.calls), w.failAt, FunctionKeyLines(v))
  {
    EmitAppend(w.log, w.calls, w.failAt, FunctionKeyHead(v), Loop(SendKeys));
    EmitAppend(w.log, w.calls, w.failAt, NAVIGATION_KEYS, [ChooseTreeKey(v), Fixed(F8NextClient)]);
    ok := WriteNavigationKeys(w);
    if !ok { return; }
    ok := w.Write(ChooseTreeKey(v));
    if !ok { return; }
    ok := w.Write(Fixed(F8NextClient));
    if !ok { return; }
    ok := WriteLoop(w, SendKeys);
  }

  /** The body of the F12 table section. */
  method WriteF12Table(w: Writer) returns (ok: bool)
    modifies w
    ensures Written(w.log, w.calls, ok) == Emit(old(w.log), old(w.calls), w.failAt, F12TableLines())
  {
    ghost var log, c := w.log, w.calls;
    ghost var enter, leave := [Fixed(F12SendKeys), Fixed(F12EnterTable)], [Fixed(F12Detach), Fixed(F12NextLayout)];
    EmitAppend(log, c, w.failAt, enter + Loop(TableKeys) + leave, Loop(WindowKeys));
    EmitAppend(log, c, w.failAt, enter + Loop(TableKeys), leave);
    EmitAppend(log, c, w.failAt, enter, Loop(TableKeys));
    ok := w.Write(Fixed(F12SendKeys));
    if !ok { return; }
    ok := w.Write(Fixed(F12EnterTable));
    if !ok { return; }
    ok := WriteLoop(w, TableKeys);
    if !ok { return; }
    ok := w.Write(Fixed(F12Detach));
    if !ok { return; }
    ok := w.Write(Fixed(F12NextLayout));
    if !ok { return; }
    ok := WriteLoop(w, WindowKeys);
  }

  /** `copy_to_system_clipboard`. */
  method CopyToSystemClipboard(w: Writer) returns (ok: bool)
    modifies w
    ensures Written(w.log, w.calls, ok) == Emit(old(w.log), old(w.calls), w.failAt, [Clipboard])
  {
    ok := w.Write(Clipboard);
  }

  /** The body of the copy-mode section. */
  method WriteCopyMode(w: Writer) returns (ok: bool)
    modifies w
    ensures Written(w.log, w.calls, ok) == Emit(old(w.log), old(w.calls), w.failAt, CopyModeLines())
  {
    ghost var first, rest := [Fixed(CopyModeKey), Clipboard], [Fixed(WheelUpHead)];
    ghost var last := [Fixed(WheelUpTail), Fixed(PageUpKey)];
    assert COPY_MODE_HEAD == first + (rest + last);
    EmitAppend(w.log, w.calls, w.failAt, COPY_MODE_HEAD, PairLines(CopyModeVi, HalfPageKeys()));
    EmitAppend(w.log, w.calls, w.failAt, first, rest + last);
    ok := w.Write(Fixed(CopyModeKey));
    if !ok { return; }
    ok := CopyToSystemClipboard(w);
    if !ok { return; }
    EmitAppend(w.log, w.calls, w.failAt, rest, last);
    ok := w.Write(Fixed(WheelUpHead));
    if !ok { return; }
    ok := w.Write(Fixed(WheelUpTail));
    if !ok { return; }
    ok := w.Write(Fixed(PageUpKey));
    if !ok { return; }
    ok := HalfPageUpPageDown(w);
  }

  /** Runs one section body. */
  method WriteBody(w: Writer, v: Version, b: Body) returns (ok: bool)
    modifies w
    ensures Written(w.log, w.calls, ok) == Emit(old(w.log), old(w.calls), w.failAt, BodyLines(v, b))
  {
    match b {
      case Options => ok := w.Write(Fixed(OptionBlock));
      case PrefixKeys => ok := WritePrefixKeys(w);
      case FunctionKeys => ok := WriteFunctionKeys(w, v);
      case F12Table => ok := WriteF12Table(w);
      case PanePath => ok := PaneCurrentPath(w);
      case CopyMode => ok := WriteCopyMode(w);
      case UnsetEnvs => ok := UnsetTmuxEnvs(w);
    }
  }

  /** `section`: start banner, body, end banner, stopping at the first error. */
  method Section(w: Writer, v: Version, b: Body) returns (ok: bool)
    modifies w
    ensures Written(w.log, w.calls, ok) == Emit(old(w.log), old(w.calls), w.failAt, SectionLines(v, b))
  {
    var name := BodyName(b);
    ghost var body := BodyLines(v, b);
    assert SectionLines(v, b) == [SectionStart(name)] + (body + [SectionEnd(name)]);
    ghost var log, c := w.log, w.calls;
    ok := w.Write(SectionStart(name));
    EmitAppend(log, c, w.failAt, [SectionStart(name)], body + [SectionEnd(name)]);
    if !ok { return; }
    log, c := w.log, w.calls;
    ok := WriteBody(w, v, b);
    EmitAppend(log, c, w.failAt, body, [SectionEnd(name)]);
    if !ok { return; }
    ok := w.Write(SectionEnd(name));
  }

  /** The first group of `render`: the header, the option and prefix-key
      sections and the three bindings after them. */
  method RenderHead(v: Version, w: Writer) returns (ok: bool)
    modifies w
    ensures Written(w.log, w.calls, ok) == Emit(old(w.log), old(w.calls), w.failAt, Flatten(HeadParts(v)))
  {
    ghost var parts := HeadParts(v);
    ghost var log, c := w.log, w.calls;
    ok := w.Write(Header(v));
    Peel(log, c, w.failAt, parts, Written(w.log, w.calls, ok));
    if !ok { return; }
    parts, log, c := parts[1..], w.log, w.calls;
    ok := Section(w, v, Options);
    Peel(log, c, w.failAt, parts, Written(w.log, w.calls, ok));
    if !ok { return; }
    parts, log, c := parts[1..], w.log, w.calls;
    ok := Section(w, v, PrefixKeys);
    Peel(log, c, w.failAt, parts, Written(w.log, w.calls, ok));
    if !ok { return; }
    parts, log, c := parts[1..], w.log, w.calls;
    ok := WriteMiscKeys(w);
    Peel(log, c, w.failAt, parts, Written(w.log, w.calls, ok));
    assert parts[1..] == [];
  }

  /** The second group of `render`: the function-key, F12 and pane-path
      sections. */
  method RenderKeys(v: Version, w: Writer) returns (ok: bool)
    modifies w
    ensures Written(w.log, w.calls, ok) == Emit(old(w.log), old(w.calls), w.failAt, Flatten(KeyParts(v)))
  {
    ghost var parts := KeyParts(v);
    ghost var log, c := w.log, w.calls;
    ok := Section(w, v, FunctionKeys);
    Peel(log, c, w.failAt, parts, Written(w.log, w.calls, ok));
    if !ok { return; }
    parts, log, c := parts[1..], w.log, w.calls;
    ok := Section(w, v, F12Table);
    Peel(log, c, w.failAt, parts, Written(w.log, w.calls, ok));
    if !ok { return; }
    parts, log, c := parts[1..], w.log, w.calls;
    ok := Section(w, v, PanePath);
    Peel(log, c, w.failAt, parts, Written(w.log, w.calls, ok));
    assert parts[1..] == [];
  }

  /** The last group of `render`: the copy-mode section, the colour scheme
      and the environment section. */
  method RenderTail(v: Version, w: Writer) returns (ok: bool)
    modifies w
    ensures Written(w.log, w.calls, ok) == Emit(old(w.log), old(w.calls), w.failAt, Flatten(TailParts(v)))
  {
    ghost var parts := TailParts(v);
    ghost var log, c := w.log, w.calls;
    ok := Section(w, v, CopyMode);
    Peel(log, c, w.failAt, parts, Written(w.log, w.calls, ok));
    if !ok { return; }
    parts, log, c := parts[1..], w.log, w.calls;
    ok := w.Write(Fixed(ColorScheme));
    Peel(log, c, w.failAt, parts, Written(w.log, w.calls, ok));
    if !ok { return; }
    parts, log, c := parts[1..], w.log, w.calls;
    ok := Section(w, v, UnsetEnvs);
    Peel(log, c, w.failAt, parts, Written(w.log, w.calls, ok));
    assert parts[1..] == [];
  }

  /** `render`: the whole configuration for `v`. Together with
      `EmitClosedForm`: on success the writer holds the lines of `Config(v)`;
      on the first failing write it holds exactly the lines before it and no
      write is attempted afterwards. */
  method Render(v: Version, w: Writer) returns (ok: bool)
    modifies w
    ensures Written(w.log, w.calls, ok) == Emit(old(w.log), old(w.calls), w.failAt, ConfigLines(v))
  {
    ghost var head, keys, tail := Flatten(HeadParts(v)), Flatten(KeyParts(v)), Flatten(TailParts(v));
    ghost var log, c := w.log, w.calls;
    EmitAppend(log, c, w.failAt, head + keys, tail);
    EmitAppend(log, c, w.failAt, head, keys);
    ok := RenderHead(v, w);
    if !ok { return; }
    ok := RenderKeys(v, w);
    if !ok { return; }
    ok := RenderTail(v, w);
  }
}
