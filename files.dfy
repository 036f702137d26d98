/** A file chosen in a file input, as the avatar checks see it. */
module Files {

  /** The size in bytes and the MIME type the browser reports. */
  datatype FileInfo = FileInfo(name: string, size: nat, mimeType: string)

  /** One mebibyte. */
  const MiB: nat := 1024 * 1024
}
