/**
 * nmkup: choosing and installing a vendor bundle
 * (nmk/src/bin/nmkup/vendor.rs).
 *
 * The listed objects are narrowed to `.tar.xz` archives, then (unless
 * filtering is disabled) to those naming the host's OS family; the user picks
 * one by number; the vendor directory is emptied or created and the archive
 * unpacked into it.
 */
module NmkupVendor {
  import opened Common
  import opened ObjectStore

  const LIST_OBJECTS_URL: string :=
    "https://storage.googleapis.com/storage/v1/b/nmk.nuimk.com/o?delimiter=/&prefix=nmk-vendor/"

  const ARCHIVE_SUFFIX: string := ".tar.xz"

  /** The OS families `/etc/os-release` can resolve to. */
  datatype OsReleaseId = Amazon | CentOs | Debian | Ubuntu

  function FilterKey(id: OsReleaseId): string {
    match id
    case Amazon => "amazon"
    case CentOs => "centos"
    case Debian => "debian"
    case Ubuntu => "ubuntu"
  }

  predicate IsArchive(o: ObjectMeta) {
    EndsWith(o.name, ARCHIVE_SUFFIX)
  }

  /** The `.tar.xz` filter applied to the listing in `install`. */
  function ArchiveObjects(listed: seq<ObjectMeta>): (r: seq<ObjectMeta>)
    ensures IsSubsequence(r, listed)
    ensures forall o :: o in r <==> o in listed && EndsWith(o.name, ARCHIVE_SUFFIX)
    ensures forall o :: multiset(r)[o] == if EndsWith(o.name, ARCHIVE_SUFFIX) then multiset(listed)[o] else 0
  {
    var r := Filter(IsArchive, listed);
    forall o ensures o in r <==> o in listed && EndsWith(o.name, ARCHIVE_SUFFIX) {
      assert o in r <==> multiset(r)[o] > 0;
      assert o in listed <==> multiset(listed)[o] > 0;
    }
    r
  }

  predicate NamesOs(key: string, o: ObjectMeta) {
    Contains(o.name, key)
  }

  /** `filter_by_os_release`, with the parsed `/etc/os-release` passed in:
      unresolved OS keeps the input; a known OS keeps, in order, exactly the
      objects whose name contains its key. */
  function FilterByOsRelease(input: seq<ObjectMeta>, os: Option<OsReleaseId>): (r: seq<ObjectMeta>)
    ensures os.None? ==> r == input
    ensures os.Some? ==> IsSubsequence(r, input)
    ensures os.Some? ==> forall o :: o in r <==> o in input && Contains(o.name, FilterKey(os.value))
    ensures os.Some? ==> forall o :: multiset(r)[o] ==
                           if Contains(o.name, FilterKey(os.value)) then multiset(input)[o] else 0
  {
    if os.None? then input
    else
      var key := FilterKey(os.value);
      var r := Filter(o => NamesOs(key, o), input);
      forall o ensures o in r <==> o in input && Contains(o.name, key) {
        assert o in r <==> multiset(r)[o] > 0;
        assert o in input <==> multiset(input)[o] > 0;
      }
      r
  }

  /** The candidates `install` offers for selection. */
  function Candidates(noFilter: bool, listed: seq<ObjectMeta>, os: Option<OsReleaseId>): seq<ObjectMeta> {
    var archives := ArchiveObjects(listed);
    if noFilter then archives else FilterByOsRelease(archives, os)
  }

  /** Where the last `/`-separated segment of `name[..k]` starts: just after
      its last `/`, or 0 when it has none. */
  function SegmentStart(name: string, k: nat): (b: nat)
    requires k <= |name|
    ensures b <= k
  {
    if k == 0 || name[k - 1] == '/' then k else SegmentStart(name, k - 1)
  }

  /** The last `/`-separated segment of an object name (`split("/").last()`),
      the whole name when it has no `/`. */
  function DisplayName(name: string): string {
    name[SegmentStart(name, |name|)..]
  }

  lemma {:induction false} SegmentStartSpec(name: string, k: nat)
    requires k <= |name|
    ensures forall i :: SegmentStart(name, k) <= i < k ==> name[i] != '/'
    ensures SegmentStart(name, k) > 0 ==> name[SegmentStart(name, k) - 1] == '/'
  {
    if k > 0 && name[k - 1] != '/' {
      SegmentStartSpec(name, k - 1);
    }
  }

  /** The display name is the longest suffix of the name free of `/`: it is a
      suffix, it holds no `/`, and the character before it (if any) is `/`. */
  lemma DisplayNameIsLastSegment(name: string)
    ensures |DisplayName(name)| <= |name| && DisplayName(name) == name[|name| - |DisplayName(name)|..]
    ensures forall i :: 0 <= i < |DisplayName(name)| ==> DisplayName(name)[i] != '/'
    ensures |DisplayName(name)| < |name| ==> name[|name| - |DisplayName(name)| - 1] == '/'
  {
    SegmentStartSpec(name, |name|);
  }

  lemma {:induction false} NameWithoutSlash(name: string, k: nat)
    requires k <= |name|
    requires forall i :: 0 <= i < |name| ==> name[i] != '/'
    ensures SegmentStart(name, k) == 0
  {
    if k > 0 {
      NameWithoutSlash(name, k - 1);
    }
  }

  /** A name without `/` is displayed whole. */
  lemma DisplayWholeName(name: string)
    requires forall i :: 0 <= i < |name| ==> name[i] != '/'
    ensures DisplayName(name) == name
  {
    NameWithoutSlash(name, |name|);
  }

  /** `get_display_name`: one display name per object, in order. */
  function GetDisplayNames(objects: seq<ObjectMeta>): (r: seq<string>)
    ensures |r| == |objects|
    ensures forall i :: 0 <= i < |r| ==> r[i] == DisplayName(objects[i].name)
  {
    if objects == [] then [] else [DisplayName(objects[0].name)] + GetDisplayNames(objects[1..])
  }

  /** One attempt at reading a line from the terminal. */
  datatype ReadLine = Line(text: string) | ReadFailure

  /** The index a line selects among `n` candidates: the trimmed line must
      parse as an unsigned integer in `[1, n]`. */
  function Judge(text: string, n: nat): (r: Option<nat>)
    ensures r.Some? ==> 1 <= r.value <= n
  {
    var parsed := ParseUsize(Trim(text));
    if parsed.Some? && 1 <= parsed.value <= n then parsed else None
  }

  function Accepted(attempt: ReadLine, n: nat): Option<nat> {
    match attempt
    case Line(text) => Judge(text, n)
    case ReadFailure => None
  }

  datatype Selection =
    | Picked(meta: ObjectMeta, choice: nat, attempts: nat)
    | NothingToSelect
    | InputExhausted

  /** What `select_vendor_files` promises: it refuses an empty list; otherwise
      the chosen object is `objects[i - 1]` for the first attempt that yields a
      valid `i`, every earlier attempt having been rejected. */
  ghost predicate SelectionSpec(objects: seq<ObjectMeta>, input: seq<ReadLine>, r: Selection) {
    && (r.NothingToSelect? <==> |objects| == 0)
    && (r.Picked? ==>
          && 1 <= r.choice <= |objects|
          && r.meta == objects[r.choice - 1]
          && 1 <= r.attempts <= |input|
          && Accepted(input[r.attempts - 1], |objects|) == Some(r.choice)
          && forall j :: 0 <= j < r.attempts - 1 ==> Accepted(input[j], |objects|).None?)
    && (r.InputExhausted? ==> forall j :: 0 <= j < |input| ==> Accepted(input[j], |objects|).None?)
  }

  /** `select_vendor_files` over a scripted terminal. The source re-prompts
      forever; running out of scripted lines ends the model with
      `InputExhausted`. The line buffer is cleared after every attempt, so each
      attempt judges exactly the line just read. The menu and the OS
      information printed before each prompt are output only. */
  method SelectVendorFiles(objects: seq<ObjectMeta>, input: seq<ReadLine>) returns (r: Selection)
    ensures SelectionSpec(objects, input, r)
    ensures r.Picked? ==> r.meta in objects
  {
    var maxIndex := |objects|;
    if maxIndex == 0 {
      return NothingToSelect;
    }
    var attempt := 0;
    while attempt < |input|
      invariant 0 <= attempt <= |input|
      invariant forall j :: 0 <= j < attempt ==> Accepted(input[j], maxIndex).None?
    {
      match input[attempt] {
        case Line(text) =>
          var index := Judge(text, maxIndex);
          if index.Some? {
            return Picked(objects[index.value - 1], index.value, attempt + 1);
          }
        case ReadFailure =>
      }
      attempt := attempt + 1;
    }
    return InputExhausted;
  }

  /** Typing a number followed by the newline the terminal delivers selects
      that entry exactly when it is one of the numbers shown in the menu. */
  lemma NumberedChoice(k: nat, n: nat)
    requires k < USIZE_LIMIT
    ensures Judge(Decimal(k) + "\n", n) == if 1 <= k <= n then Some(k) else None
  {
    var d := Decimal(k);
    assert !IsUnicodeWhitespace(d[0]) && !IsUnicodeWhitespace(d[|d| - 1]);
    TrimNoWhitespace(d, "\n");
    ParseDecimal(k);
  }

  /** A line that does not start with a digit or `+` is rejected. */
  lemma NonNumericRejected(w: string, n: nat)
    requires w != [] && !IsUnicodeWhitespace(w[0]) && !IsUnicodeWhitespace(w[|w| - 1])
    requires !IsDigit(w[0]) && w[0] != '+'
    ensures Judge(w + "\n", n) == None
  {
    TrimNoWhitespace(w, "\n");
    DigitsUpToSpec(w, |w|);
  }

  /** The selection is determined by the input: when attempt `k` is the first
      accepted one, the pick is the entry it names, made on attempt `k + 1`. */
  lemma FirstAcceptedWins(objects: seq<ObjectMeta>, input: seq<ReadLine>, r: Selection, k: nat, c: nat)
    requires SelectionSpec(objects, input, r)
    requires k < |input| && Accepted(input[k], |objects|) == Some(c)
    requires forall j :: 0 <= j < k ==> Accepted(input[j], |objects|).None?
    ensures r == Picked(objects[c - 1], c, k + 1)
  {
  }

  /** The specification admits one selection only. */
  lemma SelectionDeterministic(objects: seq<ObjectMeta>, input: seq<ReadLine>, r1: Selection, r2: Selection)
    requires SelectionSpec(objects, input, r1) && SelectionSpec(objects, input, r2)
    ensures r1 == r2
  {
    if r1.Picked? {
      FirstAcceptedWins(objects, input, r2, r1.attempts - 1, r1.choice);
    }
  }

  // How each line of the scripted session below is judged against three candidates.

  lemma ScriptedLine1()
    ensures Accepted(Line("abc\n"), 3) == None
  {
    NonNumericRejected("abc", 3);
  }

  lemma ScriptedLine2()
    ensures Accepted(Line("5\n"), 3) == None
  {
    NumberedChoice(5, 3);
    assert Decimal(5) == "5";
  }

  lemma ScriptedLine3()
    ensures Accepted(Line("0\n"), 3) == None
  {
    NumberedChoice(0, 3);
    assert Decimal(0) == "0";
  }

  lemma ScriptedLine4()
    ensures Accepted(Line("2\n"), 3) == Some(2)
  {
    NumberedChoice(2, 3);
    assert Decimal(2) == "2";
  }

  /** The scripted session `abc`, `5`, `0`, `2` against three candidates:
      the first three lines are rejected and the second candidate is chosen
      on the fourth attempt. */
  lemma ScriptedSession(objects: seq<ObjectMeta>, input: seq<ReadLine>, r: Selection)
    requires |objects| == 3 && |input| == 4
    requires input[0] == Line("abc\n") && input[1] == Line("5\n")
    requires input[2] == Line("0\n") && input[3] == Line("2\n")
    requires SelectionSpec(objects, input, r)
    ensures r == Picked(objects[1], 2, 4)
  {
    forall j | 0 <= j < 3 ensures Accepted(input[j], |objects|).None? {
      if j == 0 { ScriptedLine1(); } else if j == 1 { ScriptedLine2(); } else { ScriptedLine3(); }
    }
    ScriptedLine4();
    FirstAcceptedWins(objects, input, r, 3, 2);
  }

  /** The vendor directory under the nmk home. */
  class VendorDir {
    var present: bool
    /** Entries in the order `read_dir` yields them. */
    var entries: seq<string>

    constructor (present: bool, entries: seq<string>)
      requires !present ==> entries == []
      ensures this.present == present && this.entries == entries
    {
      this.present := present;
      this.entries := entries;
    }

    /** `remove_dir_contents`: deletes entry after entry and stops at the
        first deletion that fails (`fails`), leaving the rest in place. */
    method RemoveDirContents(fails: string -> bool) returns (ok: bool)
      modifies this`entries
      ensures ok <==> forall e :: e in old(entries) ==> !fails(e)
      ensures ok ==> entries == []
      ensures !ok ==> exists k :: 0 <= k < |old(entries)| && entries == old(entries)[k..] && fails(entries[0])
                        && forall j :: 0 <= j < k ==> !fails(old(entries)[j])
    {
      var k := 0;
      while entries != []
        invariant 0 <= k <= |old(entries)|
        invariant entries == old(entries)[k..]
        invariant forall j :: 0 <= j < k ==> !fails(old(entries)[j])
      {
        if fails(entries[0]) {
          return false;
        }
        entries := entries[1..];
        k := k + 1;
      }
      return true;
    }

    /** The part of `install` after the choice: download the bundle, empty
        the directory or create it, then unpack into it. */
    method DownloadAndUnpack(meta: ObjectMeta, downloadFile: string -> Result<seq<Byte>>,
                             removeFails: string -> bool, createFails: bool,
                             unpack: seq<Byte> -> (seq<string>, bool))
      returns (r: Result<ObjectMeta>)
      modifies this
      ensures var data := downloadFile(meta.mediaLink);
                && (data.Err? ==> r == Err(data.error) && unchanged(this))
                && (data.Ok? && !old(present) && createFails ==> r == Err(IoError) && unchanged(this))
                && (data.Ok? && old(present) && (exists e :: e in old(entries) && removeFails(e)) ==>
                      && r == Err(IoError) && present
                      && exists k :: 0 <= k < |old(entries)| && entries == old(entries)[k..] && removeFails(entries[0]))
                && (data.Ok? && (old(present) ==> forall e :: e in old(entries) ==> !removeFails(e))
                    && (!old(present) ==> !createFails) ==>
                      && present && entries == unpack(data.value).0
                      && r == if unpack(data.value).1 then Ok(meta) else Err(IoError))
      ensures r.Ok? ==>
                && r.value == meta
                && downloadFile(meta.mediaLink).Ok?
                && present
                && entries == unpack(downloadFile(meta.mediaLink).value).0
                && unpack(downloadFile(meta.mediaLink).value).1
    {
      var data := downloadFile(meta.mediaLink);
      if data.Err? {
        return Err(data.error);
      }
      if present {
        var removed := RemoveDirContents(removeFails);
        if !removed {
          return Err(IoError);
        }
      } else {
        if createFails {
          return Err(IoError);
        }
        present := true;
        entries := [];
      }
      var (written, finished) := unpack(data.value);
      entries := written;
      if !finished {
        return Err(IoError);
      }
      return Ok(meta);
    }

    /** `install`. The listing, the parsed OS identity, the terminal input,
        the download and the xz+tar unpacking (which reports the entries it
        wrote and whether it finished) are inputs. On success the chosen
        object is returned. */
    method Install(noFilter: bool, listing: Result<seq<ObjectMeta>>, os: Option<OsReleaseId>,
                   input: seq<ReadLine>, downloadFile: string -> Result<seq<Byte>>,
                   removeFails: string -> bool, createFails: bool,
                   unpack: seq<Byte> -> (seq<string>, bool))
      returns (r: Result<ObjectMeta>)
      modifies this
      ensures listing.Err? ==> r == Err(listing.error) && unchanged(this)
      ensures r.Ok? ==> listing.Ok? && r.value in Candidates(noFilter, listing.value, os)
      ensures r.Ok? ==> exists s :: SelectionSpec(Candidates(noFilter, listing.value, os), input, s)
                                    && s.Picked? && s.meta == r.value
      ensures r.Ok? ==>
                && downloadFile(r.value.mediaLink).Ok?
                && present
                && entries == unpack(downloadFile(r.value.mediaLink).value).0
                && unpack(downloadFile(r.value.mediaLink).value).1
      // nothing to choose from: the assertion in `select_vendor_files`
      ensures listing.Ok? && |Candidates(noFilter, listing.value, os)| == 0 ==> r == Err(Panic) && unchanged(this)
      // no line accepted before the input ran out
      ensures listing.Ok? && |Candidates(noFilter, listing.value, os)| > 0
              && (forall j :: 0 <= j < |input| ==> Accepted(input[j], |Candidates(noFilter, listing.value, os)|).None?)
              ==> r == Err(InputClosed) && unchanged(this)
      // after a pick: download, then empty or create the directory, then unpack
      ensures listing.Ok? ==>
                forall s :: SelectionSpec(Candidates(noFilter, listing.value, os), input, s) && s.Picked? ==>
                  var data := downloadFile(s.meta.mediaLink);
                  && (data.Err? ==> r == Err(data.error) && unchanged(this))
                  && (data.Ok? && !old(present) && createFails ==> r == Err(IoError) && unchanged(this))
                  && (data.Ok? && old(present) && (exists e :: e in old(entries) && removeFails(e)) ==>
                        && r == Err(IoError) && present
                        && exists k :: 0 <= k < |old(entries)| && entries == old(entries)[k..] && removeFails(entries[0]))
                  && (data.Ok? && (old(present) ==> forall e :: e in old(entries) ==> !removeFails(e))
                      && (!old(present) ==> !createFails) ==>
                        && present && entries == unpack(data.value).0
                        && r == if unpack(data.value).1 then Ok(s.meta) else Err(IoError))
    {
      if listing.Err? {
        return Err(listing.error);
      }
      var objects := ArchiveObjects(listing.value);
      if !noFilter {
        objects := FilterByOsRelease(objects, os);
      }
      var selected := SelectVendorFiles(objects, input);
      forall s | SelectionSpec(objects, input, s)
        ensures s == selected
      {
        SelectionDeterministic(objects, input, s, selected);
      }
      if selected.NothingToSelect? {
        return Err(Panic);
      } else if selected.InputExhausted? {
        return Err(InputClosed);
      }
      r := DownloadAndUnpack(selected.meta, downloadFile, removeFails, createFails, unpack);
    }
  }
}
