/** The local filesystem as the scripts see it: a map from path to content for
    every regular, readable file, and for every directory the names `glob("*")` lists in it. */
module Files {

  type Bytes = seq<bv8>

  datatype FileSystem<C> = FileSystem(files: map<string, C>, listing: map<string, seq<string>>)

  /** An error that escapes a script as an uncaught Python exception. */
  datatype Error =
    | NotReadable(path: string)  // any OSError of `read_bytes` / `read_text`: missing, a directory, ...
    | KeyError(key: string)      // a job-config key the code indexes is absent

  datatype Result<T> = Ok(value: T) | Err(error: Error)

  /** `Path.is_file()`. */
  predicate IsFile<C>(fs: FileSystem<C>, p: string)
  {
    p in fs.files
  }

  /** The names `glob("*")` yields in `dir`; a directory that does not exist yields none. */
  function Entries<C>(fs: FileSystem<C>, dir: string): seq<string>
  {
    if dir in fs.listing then fs.listing[dir] else []
  }

  /** `dir / name` for a single path component `name`. */
  function Join(dir: string, name: string): string
  {
    dir + "/" + name
  }

  /** `read_bytes()` / `read_text()`: the content of a regular file, or NotReadable. */
  function Read<C>(fs: FileSystem<C>, p: string): (r: Result<C>)
    ensures r.Ok? <==> IsFile(fs, p)
    ensures r.Ok? ==> r.value == fs.files[p]
    ensures r.Err? ==> r.error == NotReadable(p)
  {
    if p in fs.files then Ok(fs.files[p]) else Err(NotReadable(p))
  }
}
