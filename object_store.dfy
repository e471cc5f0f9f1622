/**
 * Values exchanged with the remote object store. The HTTP requests that
 * produce them are not modelled: operations receive them as inputs.
 */
module ObjectStore {

  /** Metadata of one stored object, as returned by the listing and the
      per-object metadata requests. `generation` is opaque and only ever
      compared for equality. */
  datatype ObjectMeta = ObjectMeta(name: string, generation: string, mediaLink: string, size: nat)

  /** The failures the provisioning operations can end with. `Panic` stands
      for an `expect`/`assert!` in the source that aborts the process. */
  datatype Error =
    | RemoteUnavailable
    | NotFound
    | MalformedResponse
    | IoError
    | UnsupportedTarget
    | NoCandidates
    | InputClosed
    | Panic

  datatype Result<T> = Ok(value: T) | Err(error: Error)

  /** A byte of a downloaded or decompressed payload. */
  type Byte = bv8
}
