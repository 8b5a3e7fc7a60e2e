/** The storage collaborators, as values: the bucket seen as a file tree
    (directory listings and whole-file reads) and the local file system that
    holds the public key. Each call either yields its data or an error
    message. */
module Storage {
  import opened Wrappers
  import opened Bytes
  import opened GoStrings

  /** What reading a whole file yields: its bytes, a failure to open it, or
      a failure part-way through with what had been read so far. */
  datatype FileRead =
    | Contents(bytes: seq<byte>)
    | OpenFailed(openError: string)
    | ReadFailed(partial: seq<byte>, readError: string)

  /** A directory's entry names as `fs.ReadDir` returns them: sorted by
      name. The model also takes the names to be distinct. */
  type Listing = names: seq<string> | Ascending(names)

  /** The bucket: `fs.ReadDir` gives the entry names of a directory;
      `open` opens and reads one object. */
  datatype Store = Store(readDir: string -> Result<Listing, string>, open: string -> FileRead)

  /** A Go byte slice: its elements and its capacity. */
  datatype ByteSlice = ByteSlice(data: seq<byte>, capacity: nat)

  /** The smallest buffer `os.ReadFile` allocates. */
  const ReadFileMinBuffer: nat := 512

  function Max(a: nat, b: nat): nat {
    if a < b then b else a
  }

  /** The bytes a read delivered: all of them, the part before a read error,
      or nothing when the file could not be opened. */
  function Delivered(r: FileRead): seq<byte> {
    match r
    case OpenFailed(_) => []
    case Contents(bytes) => bytes
    case ReadFailed(partial, _) => partial
  }

  /** `os.ReadFile`: a nil slice when the file cannot be opened; otherwise
      what was read, in a buffer sized for the file plus one byte and never
      smaller than 512 bytes. A read error still returns the bytes read. */
  function OsReadFile(r: FileRead): (s: ByteSlice)
    ensures |s.data| <= s.capacity
    ensures r.OpenFailed? <==> s.capacity == 0
    ensures !r.OpenFailed? ==> s.capacity >= ReadFileMinBuffer
    ensures s.data == Delivered(r)
    ensures r.Contents? ==> s.data == r.bytes
    ensures r.ReadFailed? ==> s.data == r.partial
    ensures r.OpenFailed? ==> s.data == []
  {
    match r
    case OpenFailed(_) => ByteSlice([], 0)
    case Contents(bytes) => ByteSlice(bytes, Max(ReadFileMinBuffer, |bytes| + 1))
    case ReadFailed(partial, _) => ByteSlice(partial, Max(ReadFileMinBuffer, |partial| + 1))
  }
}
