/**
 * nmkup: keeping the `nmk` entrypoint binary current
 * (nmk/src/bin/nmkup/entrypoint.rs).
 *
 * The binary at `bin/nmk` is reinstalled unless it exists, a cached copy of
 * the remote metadata (`.nmk.meta`) exists, and the cached generation equals
 * the remote one. An install writes the binary first and the metadata after.
 */
module NmkupEntrypoint {
  import opened Common
  import opened ObjectStore

  /** Name of the cached-metadata file in the nmk home directory. */
  const NMK_META: string := ".nmk.meta"

  datatype EntrypointInstallation = Installed | Up2Date

  /** `is_entrypoint_up2date`: the entrypoint is current only when the binary
      exists, the cached metadata exists and its generation equals the remote
      generation (equality only, no ordering). */
  function IsEntrypointUp2Date(entrypointExists: bool, cached: Option<ObjectMeta>, remote: ObjectMeta): (r: bool)
    ensures !entrypointExists ==> !r
    ensures cached.None? ==> !r
    ensures r ==> cached.Some? && cached.value.generation == remote.generation
  {
    if !entrypointExists then false
    else if cached.None? then false
    else cached.value.generation == remote.generation
  }

  /** The staleness decision as a table evaluated in precedence order:
      force, binary missing, cache missing, generations equal. */
  datatype Decision = UpToDate | NeedsInstall

  function DecisionTable(force: bool, artifactPresent: bool, cached: Option<ObjectMeta>, remote: ObjectMeta): Decision {
    if force then NeedsInstall
    else if !artifactPresent then NeedsInstall
    else if cached.None? then NeedsInstall
    else if cached.value.generation == remote.generation then UpToDate
    else NeedsInstall
  }

  /** The branch taken by `install_or_update` (`!force && is_entrypoint_up2date`)
      agrees with the decision table on every input. */
  lemma BranchAgreesWithTable(force: bool, present: bool, cached: Option<ObjectMeta>, remote: ObjectMeta)
    ensures (!force && IsEntrypointUp2Date(present, cached, remote)) <==> DecisionTable(force, present, cached, remote) == UpToDate
    ensures force ==> DecisionTable(force, present, cached, remote) == NeedsInstall
  {
  }

  /** The observable steps of an update, in the order they happen. */
  datatype Effect = Download(url: string) | InstallBinary | WriteMeta(meta: ObjectMeta)

  /** The part of the nmk home directory the entrypoint update touches. */
  class NmkHome {
    /** Contents of `bin/nmk`, absent when the file does not exist. */
    var entrypoint: Option<seq<Byte>>
    /** The record in `.nmk.meta`, absent when the file does not exist. */
    var cachedMeta: Option<ObjectMeta>
    /** Downloads, installs and metadata writes performed so far. */
    var effects: seq<Effect>

    constructor (entrypoint: Option<seq<Byte>>, cachedMeta: Option<ObjectMeta>)
      ensures this.entrypoint == entrypoint && this.cachedMeta == cachedMeta && effects == []
    {
      this.entrypoint := entrypoint;
      this.cachedMeta := cachedMeta;
      effects := [];
    }

    /** `install_or_update`. `remoteName` is the object name for the detected
        target (`None` when the architecture is unsupported, where the source
        panics); `getObjectMeta`, `downloadFile` and `installEntrypoint` stand
        for the metadata request, the download and the xz-decode-then-install
        step, each of which may fail. */
    method InstallOrUpdate(force: bool, remoteName: Option<string>,
                           getObjectMeta: string -> Result<ObjectMeta>,
                           downloadFile: string -> Result<seq<Byte>>,
                           installEntrypoint: seq<Byte> -> Result<seq<Byte>>)
      returns (r: Result<EntrypointInstallation>)
      modifies this
      // no target or no remote metadata: nothing happens
      ensures remoteName.None? ==> r == Err(Panic) && unchanged(this)
      ensures remoteName.Some? && getObjectMeta(remoteName.value).Err? ==>
                r == Err(getObjectMeta(remoteName.value).error) && unchanged(this)
      // the up-to-date outcome: exactly when not forced and up to date; no download, install or write
      ensures remoteName.Some? && getObjectMeta(remoteName.value).Ok? ==>
                var meta := getObjectMeta(remoteName.value).value;
                (r == Ok(Up2Date) <==> !force && IsEntrypointUp2Date(old(entrypoint).Some?, old(cachedMeta), meta))
      ensures r == Ok(Up2Date) ==> unchanged(this)
      // the install branch: `Installed` exactly when the download and the install
      // both succeed; otherwise the failing step's own error, after the download attempt
      ensures remoteName.Some? && getObjectMeta(remoteName.value).Ok? && r != Ok(Up2Date) ==>
                var meta := getObjectMeta(remoteName.value).value;
                var data := downloadFile(meta.mediaLink);
                && (r == Ok(Installed) <==> data.Ok? && installEntrypoint(data.value).Ok?)
                && (data.Err? ==> r == Err(data.error))
                && (data.Ok? && installEntrypoint(data.value).Err? ==> r == Err(installEntrypoint(data.value).error))
                && (r.Err? ==> effects == old(effects) + [Download(meta.mediaLink)])
      // the install outcome: download, install, then write the metadata
      ensures r == Ok(Installed) ==>
                var meta := getObjectMeta(remoteName.value).value;
                && downloadFile(meta.mediaLink).Ok?
                && installEntrypoint(downloadFile(meta.mediaLink).value).Ok?
                && entrypoint == Some(installEntrypoint(downloadFile(meta.mediaLink).value).value)
                && cachedMeta == Some(meta)
                && effects == old(effects) + [Download(meta.mediaLink), InstallBinary, WriteMeta(meta)]
      // a failure never writes the metadata nor touches the binary
      ensures r.Err? ==> entrypoint == old(entrypoint) && cachedMeta == old(cachedMeta)
      ensures r.Err? ==> forall e :: e in effects && e !in old(effects) ==> e.Download?
      // whichever way it succeeds, a second run against the same remote would be up to date
      ensures r.Ok? ==> IsEntrypointUp2Date(entrypoint.Some?, cachedMeta, getObjectMeta(remoteName.value).value)
    {
      if remoteName.None? {
        return Err(Panic);
      }
      var fetched := getObjectMeta(remoteName.value);
      if fetched.Err? {
        return Err(fetched.error);
      }
      var meta := fetched.value;
      if !force && IsEntrypointUp2Date(entrypoint.Some?, cachedMeta, meta) {
        return Ok(Up2Date);
      }
      var dataUrl := meta.mediaLink;
      effects := effects + [Download(dataUrl)];
      var data := downloadFile(dataUrl);
      if data.Err? {
        return Err(data.error);
      }
      var installed := installEntrypoint(data.value);
      if installed.Err? {
        return Err(installed.error);
      }
      entrypoint := Some(installed.value);
      effects := effects + [InstallBinary];
      cachedMeta := Some(meta);
      effects := effects + [WriteMeta(meta)];
      return Ok(Installed);
    }
  }
}
