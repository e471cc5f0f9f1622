/**
 * The pure parts of the release build script (nmk/build.py): reading the
 * crate version from the manifest, the `RUSTFLAGS` value, the environment
 * handed to `cross build`, the target-triple table, the release directory
 * and the names of the files `dist` produces.
 *
 * Files are given as their lines (as Python iterates them, each keeping its
 * newline); paths are lists of components below the directory holding the
 * script, whose location is a parameter.
 */
module BuildScript {
  import opened Common

  // ---------------------------------------------------------------------------
  // The manifest version: `re.compile(r'^version\s*=\s*"(.*)"').match(line)`

  /** Python's `\s` on `str` patterns: the characters `str.isspace` accepts,
      which are Unicode White_Space plus the four separators U+1C to U+1F. */
  predicate IsRegexSpace(c: char) {
    IsUnicodeWhitespace(c) || ('\U{1C}' <= c <= '\U{1F}')
  }

  /** `\s*` from index `i`: the index of the first non-space at or after `i`. */
  function SkipSpaces(s: string, i: nat): (j: nat)
    requires i <= |s|
    ensures i <= j <= |s|
    ensures forall k :: i <= k < j ==> IsRegexSpace(s[k])
    ensures j < |s| ==> !IsRegexSpace(s[j])
    decreases |s| - i
  {
    if i < |s| && IsRegexSpace(s[i]) then SkipSpaces(s, i + 1) else i
  }

  /** Where `.` stops matching: the first newline at or after `i`, or the end. */
  function LineEnd(s: string, i: nat): (e: nat)
    requires i <= |s|
    ensures i <= e <= |s|
    ensures forall k :: i <= k < e ==> s[k] != '\n'
    ensures e < |s| ==> s[e] == '\n'
    decreases |s| - i
  {
    if i < |s| && s[i] != '\n' then LineEnd(s, i + 1) else i
  }

  /** The last `"` in `s[i..e]`, which is where a greedy `(.*)"` ends. */
  function LastQuote(s: string, i: nat, e: nat): (r: Option<nat>)
    requires i <= e <= |s|
    ensures r.Some? ==> i <= r.value < e && s[r.value] == '"'
                        && forall k :: r.value < k < e ==> s[k] != '"'
    ensures r.None? ==> forall k :: i <= k < e ==> s[k] != '"'
    decreases e - i
  {
    if e == i then None
    else if s[e - 1] == '"' then Some(e - 1)
    else LastQuote(s, i, e - 1)
  }

  /** The capture group of the version pattern matched at the start of
      `line`, or `None` when the pattern does not match there. */
  function MatchVersionLine(line: string): Option<string> {
    if !("version" <= line) then None
    else
      var a := SkipSpaces(line, 7);
      if a == |line| || line[a] != '=' then None
      else
        var b := SkipSpaces(line, a + 1);
        if b == |line| || line[b] != '"' then None
        else
          match LastQuote(line, b + 1, LineEnd(line, b + 1))
          case None => None
          case Some(q) => Some(line[b + 1..q])
  }

  predicate AllRegexSpaces(s: string) {
    forall k :: 0 <= k < |s| ==> IsRegexSpace(s[k])
  }

  /** No `"` before the first newline of `s`. */
  predicate NoQuoteOnLine(s: string) {
    forall k :: 0 <= k < LineEnd(s, 0) ==> s[k] != '"'
  }

  /** A line made of `version`, spaces, `=`, spaces, `"`, a value without a
      newline, `"` and a remainder with no `"` before its end of line. */
  function VersionLine(ws1: string, ws2: string, value: string, rest: string): string {
    "version" + ws1 + "=" + ws2 + "\"" + value + "\"" + rest
  }

  /** `SkipSpaces`, `LineEnd` and `LastQuote` are pinned down by their
      contracts: any index with the same properties is theirs. */
  lemma SkipSpacesAt(s: string, i: nat, j: nat)
    requires i <= j <= |s|
    requires forall k :: i <= k < j ==> IsRegexSpace(s[k])
    requires j < |s| ==> !IsRegexSpace(s[j])
    ensures SkipSpaces(s, i) == j
  {
  }

  lemma LineEndAt(s: string, i: nat, e: nat)
    requires i <= e <= |s|
    requires forall k :: i <= k < e ==> s[k] != '\n'
    requires e < |s| ==> s[e] == '\n'
    ensures LineEnd(s, i) == e
  {
  }

  lemma LastQuoteAt(s: string, i: nat, q: nat, e: nat)
    requires i <= q < e <= |s| && s[q] == '"'
    requires forall k :: q < k < e ==> s[k] != '"'
    ensures LastQuote(s, i, e) == Some(q)
  {
  }

  /** The match, once its three scans are known. */
  lemma MatchAt(line: string, a: nat, b: nat, q: nat)
    requires "version" <= line && 7 <= a < b < q < |line|
    requires SkipSpaces(line, 7) == a && line[a] == '='
    requires SkipSpaces(line, a + 1) == b && line[b] == '"'
    requires LastQuote(line, b + 1, LineEnd(line, b + 1)) == Some(q)
    ensures MatchVersionLine(line) == Some(line[b + 1..q])
  {
  }

  /** Where the pieces of a `VersionLine` sit. */
  lemma VersionLineLayout(ws1: string, ws2: string, value: string, rest: string)
    ensures var line := VersionLine(ws1, ws2, value, rest);
            var a := 7 + |ws1|;
            var b := a + 1 + |ws2|;
            var q := b + 1 + |value|;
            && |line| == q + 1 + |rest|
            && "version" <= line
            && (forall k :: 7 <= k < a ==> line[k] == ws1[k - 7])
            && line[a] == '='
            && (forall k :: a < k < b ==> line[k] == ws2[k - a - 1])
            && line[b] == '"'
            && line[b + 1..q] == value
            && line[q] == '"'
            && line[q + 1..] == rest
  {
  }

  /** Every such line matches, and the capture is exactly the value: the
      value may itself hold `"`, since the capture runs to the last `"`. */
  lemma VersionLineMatches(ws1: string, ws2: string, value: string, rest: string)
    requires AllRegexSpaces(ws1) && AllRegexSpaces(ws2)
    requires '\n' !in value
    requires NoQuoteOnLine(rest)
    ensures MatchVersionLine(VersionLine(ws1, ws2, value, rest)) == Some(value)
  {
    var line := VersionLine(ws1, ws2, value, rest);
    VersionLineLayout(ws1, ws2, value, rest);
    var a := 7 + |ws1|;
    var b := a + 1 + |ws2|;
    var q := b + 1 + |value|;
    var re := LineEnd(rest, 0);
    var e := q + 1 + re;
    SkipSpacesAt(line, 7, a);
    SkipSpacesAt(line, a + 1, b);
    forall k | b + 1 <= k < e ensures line[k] != '\n' {
      if k < q {
        assert line[k] == line[b + 1..q][k - b - 1];
      } else if k > q {
        assert line[k] == line[q + 1..][k - q - 1];
      }
    }
    if e < |line| {
      assert line[e] == line[q + 1..][re];
    }
    LineEndAt(line, b + 1, e);
    forall k | q < k < e ensures line[k] != '"' {
      assert line[k] == line[q + 1..][k - q - 1];
    }
    LastQuoteAt(line, b + 1, q, e);
    MatchAt(line, a, b, q);
  }

  /** The three scans of a line that matches. */
  lemma MatchParts(line: string) returns (a: nat, b: nat, q: nat)
    requires MatchVersionLine(line).Some?
    ensures "version" <= line && 7 <= a < b < q < |line|
    ensures SkipSpaces(line, 7) == a && line[a] == '='
    ensures SkipSpaces(line, a + 1) == b && line[b] == '"'
    ensures LastQuote(line, b + 1, LineEnd(line, b + 1)) == Some(q)
    ensures MatchVersionLine(line).value == line[b + 1..q]
  {
    a := SkipSpaces(line, 7);
    b := SkipSpaces(line, a + 1);
    q := LastQuote(line, b + 1, LineEnd(line, b + 1)).value;
  }

  /** A line cut at `version`, `=` and two `"`. */
  lemma CutLine(line: string, a: nat, b: nat, q: nat)
    requires "version" <= line && 7 <= a < b < q < |line|
    requires line[a] == '=' && line[b] == '"' && line[q] == '"'
    ensures line == VersionLine(line[7..a], line[a + 1..b], line[b + 1..q], line[q + 1..])
  {
    var ws1, ws2, value, rest := line[7..a], line[a + 1..b], line[b + 1..q], line[q + 1..];
    assert line[..a] == "version" + ws1 by {
      assert line[..a] == line[..7] + ws1;
    }
    assert line[..a + 1] == line[..a] + "=";
    assert line[..b] == line[..a + 1] + ws2;
    assert line[..b + 1] == line[..b] + "\"";
    assert line[..q] == line[..b + 1] + value;
    assert line[..q + 1] == line[..q] + "\"";
    assert line == line[..q + 1] + rest;
  }

  /** Conversely, a line that matches is such a line, with the capture as
      its value. */
  lemma MatchedLineShape(line: string) returns (ws1: string, ws2: string, rest: string)
    requires MatchVersionLine(line).Some?
    ensures var value := MatchVersionLine(line).value;
            && line == VersionLine(ws1, ws2, value, rest)
            && AllRegexSpaces(ws1) && AllRegexSpaces(ws2)
            && '\n' !in value
            && NoQuoteOnLine(rest)
  {
    var a, b, q := MatchParts(line);
    CutLine(line, a, b, q);
    var e := LineEnd(line, b + 1);
    var value := line[b + 1..q];
    ws1, ws2, rest := line[7..a], line[a + 1..b], line[q + 1..];
    forall k | 0 <= k < |ws1| ensures IsRegexSpace(ws1[k]) {
      assert ws1[k] == line[7 + k];
    }
    forall k | 0 <= k < |ws2| ensures IsRegexSpace(ws2[k]) {
      assert ws2[k] == line[a + 1 + k];
    }
    forall k | 0 <= k < |value| ensures value[k] != '\n' {
      assert value[k] == line[b + 1 + k];
    }
    var m := e - q - 1;
    forall k | 0 <= k < m ensures rest[k] != '\n' && rest[k] != '"' {
      assert rest[k] == line[q + 1 + k];
    }
    if m < |rest| {
      assert rest[m] == line[e];
    }
    LineEndAt(rest, 0, m);
  }

  /** The capture is greedy: it runs to the last `"` of the line. */
  lemma GreedyCapture()
    ensures MatchVersionLine(VersionLine(" ", " ", "1.0\" # \"x", "\n")) == Some("1.0\" # \"x")
  {
    assert LineEnd("\n", 0) == 0;
    VersionLineMatches(" ", " ", "1.0\" # \"x", "\n");
  }

  /** Lines that do not start with `version` never match. */
  lemma OtherLinesDoNotMatch(line: string)
    requires |line| < 7 || line[..7] != "version"
    ensures MatchVersionLine(line) == None
  {
  }

  /** The result of `m` on the first line where it gives one, or `None`. */
  function FirstMatch(m: string -> Option<string>, lines: seq<string>): (r: Option<string>)
    ensures r.None? <==> forall i :: 0 <= i < |lines| ==> m(lines[i]).None?
    ensures r.Some? ==> exists i :: 0 <= i < |lines| && m(lines[i]) == r
                          && forall j :: 0 <= j < i ==> m(lines[j]).None?
  {
    if lines == [] then None
    else if m(lines[0]).Some? then m(lines[0])
    else
      var r := FirstMatch(m, lines[1..]);
      assert forall i :: 1 <= i < |lines| ==> lines[i] == lines[1..][i - 1];
      if r.Some? then
        var i :| 0 <= i < |lines[1..]| && m(lines[1..][i]) == r
                 && forall j :: 0 <= j < i ==> m(lines[1..][j]).None?;
        assert m(lines[i + 1]) == r;
        r
      else r
  }

  /** Once a line matches, the lines after it are never looked at. */
  lemma {:induction false} LaterLinesIgnored(m: string -> Option<string>, lines: seq<string>, more: seq<string>)
    requires FirstMatch(m, lines).Some?
    ensures FirstMatch(m, lines + more) == FirstMatch(m, lines)
  {
    assert lines != [];
    assert (lines + more)[0] == lines[0];
    if m(lines[0]).None? {
      assert (lines + more)[1..] == lines[1..] + more;
      LaterLinesIgnored(m, lines[1..], more);
    }
  }

  /** `get_version_from_manifest`, over the lines of the manifest. */
  method GetVersionFromManifest(lines: seq<string>) returns (r: Option<string>)
    ensures r == FirstMatch(MatchVersionLine, lines)
  {
    for i := 0 to |lines|
      invariant FirstMatch(MatchVersionLine, lines) == FirstMatch(MatchVersionLine, lines[i..])
    {
      var m := MatchVersionLine(lines[i]);
      assert lines[i..][1..] == lines[i + 1..];
      if m.Some? {
        return m;
      }
    }
    assert lines[|lines|..] == [];
    return None;
  }

  // ---------------------------------------------------------------------------
  // Build flags and environment

  const STRIP_FLAGS: string := "-C link-arg=-s"

  /** `build_rust_flags`: the linker is asked to strip exactly when `strip`. */
  method BuildRustFlags(strip: bool) returns (flags: string)
    ensures flags == if strip then STRIP_FLAGS else ""
  {
    var parts: seq<string> := [];
    if strip {
      parts := parts + ["-C", "link-arg=-s"];
      assert Join(" ", parts) == "-C" + " " + Join(" ", ["link-arg=-s"]);
    }
    flags := Join(" ", parts);
  }

  /** Python truth of `commit_id`: `None` and `""` are false. */
  predicate Truthy(commitId: Option<string>) {
    commitId.Some? && commitId.value != ""
  }

  /** The variables `build_release` adds for the build. */
  method BuildReleaseEnv(strip: bool, lto: bool, commitId: Option<string>) returns (env: map<string, string>)
    ensures "RUSTFLAGS" in env && env["RUSTFLAGS"] == if strip then STRIP_FLAGS else ""
    ensures "CARGO_PROFILE_RELEASE_LTO" in env <==> lto
    ensures lto ==> env["CARGO_PROFILE_RELEASE_LTO"] == "true"
    ensures "GIT_SHORT_SHA" in env <==> Truthy(commitId)
    ensures Truthy(commitId) ==> env["GIT_SHORT_SHA"] == commitId.value
    ensures env.Keys <= {"RUSTFLAGS", "CARGO_PROFILE_RELEASE_LTO", "GIT_SHORT_SHA"}
  {
    var rustFlags := BuildRustFlags(strip);
    env := map["RUSTFLAGS" := rustFlags];
    if lto {
      env := env["CARGO_PROFILE_RELEASE_LTO" := "true"];
    }
    if Truthy(commitId) {
      env := env["GIT_SHORT_SHA" := commitId.value];
    }
  }

  /** `dict(os.environ.copy(), **env)`: the caller's environment with the
      build variables added, a build variable winning over an inherited one. */
  function ChildEnv(inherited: map<string, string>, env: map<string, string>): (r: map<string, string>)
    ensures r.Keys == inherited.Keys + env.Keys
    ensures forall k :: k in env ==> r[k] == env[k]
    ensures forall k :: k in inherited && k !in env ==> r[k] == inherited[k]
  {
    inherited + env
  }

  // ---------------------------------------------------------------------------
  // Targets, directories and dist files

  const DEFAULT_TARGET: string := "amd64"

  /** `TARGET_TRIPLE`. */
  const TARGET_TRIPLE: map<string, string> := map[
    "amd64" := "x86_64-unknown-linux-musl",
    "arm64" := "aarch64-unknown-linux-musl",
    "arm" := "arm-unknown-linux-musleabi",
    "armv7" := "armv7-unknown-linux-musleabihf"
  ]

  /** The `--target` option (default `amd64`, one of the table's keys, or
      rejected by the argument parser), looked up in the table as `main`
      does. */
  function SelectTriple(target: Option<string>): (r: Option<string>)
    ensures r.Some? <==> target.None? || target.value in TARGET_TRIPLE
    ensures target.None? ==> r == Some("x86_64-unknown-linux-musl")
    ensures r.Some? ==> r.value in TARGET_TRIPLE.Values
  {
    var key := if target.None? then DEFAULT_TARGET else target.value;
    if key in TARGET_TRIPLE then Some(TARGET_TRIPLE[key]) else None
  }

  /** The table has four targets and no two share a triple. */
  lemma TargetTable()
    ensures TARGET_TRIPLE.Keys == {"amd64", "arm64", "arm", "armv7"}
    ensures forall k1, k2 :: k1 in TARGET_TRIPLE && k2 in TARGET_TRIPLE && k1 != k2 ==>
              TARGET_TRIPLE[k1] != TARGET_TRIPLE[k2]
  {
    var t := TARGET_TRIPLE;
    assert t["amd64"][..2] == "x8" && t["arm64"][..2] == "aa";
    assert t["arm"][..4] == "arm-" && t["armv7"][..4] == "armv";
    assert |t["arm"]| != |t["armv7"]|;
  }

  /** A path: its components below the script's directory `root`. */
  type Path = seq<string>

  function TargetDir(root: Path): Path {
    root + ["target.cross"]
  }

  function DistDir(root: Path): Path {
    root + ["dist"]
  }

  /** `get_release_dir`: `TARGET_DIR/<triple>/release`. Different triples
      get different directories, all inside the target directory. */
  function GetReleaseDir(root: Path, triple: string): (r: Path)
    ensures TargetDir(root) <= r && |r| == |TargetDir(root)| + 2
    ensures r[|TargetDir(root)|] == triple && r[|r| - 1] == "release"
  {
    TargetDir(root) + [triple, "release"]
  }

  lemma ReleaseDirInjective(root: Path, t1: string, t2: string)
    requires GetReleaseDir(root, t1) == GetReleaseDir(root, t2)
    ensures t1 == t2
  {
    assert GetReleaseDir(root, t1)[|root| + 1] == t1;
  }

  /** What `dist` does to one file. */
  datatype DistStep =
    | Compress(source: Path, dest: Path)   // xz-compress `source` into `dest`
    | Copy(source: Path, dest: Path)       // copy `source` to `dest` as is

  /** The name of a dist file: `<bin>-<triple>`, with `.xz` when compressed. */
  function DistName(binary: string, triple: string, compressed: bool): string {
    binary + "-" + triple + (if compressed then ".xz" else "")
  }

  /** `dist`: both binaries compressed, then `nmkup` copied uncompressed. */
  method Dist(root: Path, triple: string, releaseDir: Path) returns (steps: seq<DistStep>)
    ensures steps == [ Compress(releaseDir + ["nmk"], DistDir(root) + [DistName("nmk", triple, true)]),
                       Compress(releaseDir + ["nmkup"], DistDir(root) + [DistName("nmkup", triple, true)]),
                       Copy(releaseDir + ["nmkup"], DistDir(root) + [DistName("nmkup", triple, false)]) ]
  {
    steps := [];
    var binaries := ["nmk", "nmkup"];
    for i := 0 to |binaries|
      invariant steps == seq(i, j requires 0 <= j < i =>
                               Compress(releaseDir + [binaries[j]], DistDir(root) + [DistName(binaries[j], triple, true)]))
    {
      steps := steps + [Compress(releaseDir + [binaries[i]], DistDir(root) + [DistName(binaries[i], triple, true)])];
    }
    steps := steps + [Copy(releaseDir + ["nmkup"], DistDir(root) + [DistName("nmkup", triple, false)])];
  }

  /** The three dist files have three different names, for every triple. */
  lemma DistNamesDistinct(triple: string)
    ensures DistName("nmk", triple, true) != DistName("nmkup", triple, true)
    ensures DistName("nmk", triple, true) != DistName("nmkup", triple, false)
    ensures DistName("nmkup", triple, true) != DistName("nmkup", triple, false)
  {
    assert DistName("nmk", triple, true)[3] == '-';
    assert DistName("nmkup", triple, true)[3] == 'u';
    assert DistName("nmkup", triple, false)[3] == 'u';
    assert |DistName("nmkup", triple, true)| == |DistName("nmkup", triple, false)| + 3;
  }
}
