/** Shared vocabulary of the model: an optional value (for C's NULL pointers), an octet
    and the error codes the modelled functions return. */
module Common {

  /** A pointer that may be NULL, or a value that may be absent. */
  datatype Option<T> = None | Some(value: T)

  /** An octet, as stored on disk or in a stream buffer. */
  newtype byte = x: int | 0 <= x < 256

  /** Error codes. Only EOK being 0, the others being negative and the
      codes being pairwise distinct matter to the model; the errno header
      is not part of this model, so the non-zero values are placeholders. */
  const EOK: int := 0
  const ENOENT: int := -1
  const ENOMEM: int := -2
  const EIO: int := -265
  /** Error code of the ext4 library for a malformed hash-tree directory. */
  const EXT4_ERR_BAD_DX_DIR: int := -75000

  /** The C library's end-of-file marker. */
  const EOF: int := -1
}
