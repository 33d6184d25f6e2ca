/** The read-only view of the filesystem the readers see: a map from path
    to the file's whole contents. A path that is absent cannot be opened. */
module Files {
  import opened Results
  import opened Text

  type FileSystem = map<string, string>

  /** The message `File::open` reports for a missing file. */
  const NOT_FOUND_MESSAGE: string := "No such file or directory (os error 2)"

  /** `PathBuf::join` with a relative file name: a `/` is inserted unless
      the base is empty or already ends in one. */
  function JoinPath(base: string, name: string): (p: string)
    ensures StartsWith(p, base)
    ensures |p| >= |name| && p[|p| - |name|..] == name
  {
    if base == [] then name
    else if base[|base| - 1] == '/' then base + name
    else base + "/" + name
  }

  /** Joining onto a base without a trailing `/` inserts exactly one. */
  lemma JoinWithSlash(base: string, name: string)
    requires base != [] && base[|base| - 1] != '/'
    ensures JoinPath(base, name) == base + "/" + name
  {
  }

  /** `File::open` then `BufRead::read_line`: the text up to and including
      the first `\n`, or the whole file when it has none. */
  function ReadFirstLine(fs: FileSystem, path: string): (r: Result<string>)
    ensures r.Ok? <==> path in fs
    ensures r.Ok? ==> StartsWith(fs[path], r.value)
    ensures r.Ok? ==> forall k :: 0 <= k < |r.value| - 1 ==> r.value[k] != '\n'
    ensures r.Ok? && '\n' in fs[path] ==> |r.value| > 0 && r.value[|r.value| - 1] == '\n'
    ensures r.Ok? && '\n' !in fs[path] ==> r.value == fs[path]
    ensures r.Err? ==> r.error == IoError(NotFound, NOT_FOUND_MESSAGE)
  {
    if path in fs then Ok(FirstLine(fs[path])) else Err(IoError(NotFound, NOT_FOUND_MESSAGE))
  }

  /** `File::open` then `BufRead::lines().collect()`: one line per `\n`
      terminator, plus an unterminated last line; the lines joined with
      `\n` give the file back when it has no `\r\n` terminators. */
  function ReadLines(fs: FileSystem, path: string): (r: Result<seq<string>>)
    ensures r.Ok? <==> path in fs
    ensures r.Ok? ==> forall l :: l in r.value ==> '\n' !in l
    ensures r.Ok? ==> |r.value| == Count(fs[path], '\n') + (if fs[path] != [] && fs[path][|fs[path]| - 1] != '\n' then 1 else 0)
    ensures r.Ok? && '\r' !in fs[path] ==> Join(r.value, '\n') + FinalNewline(fs[path]) == fs[path]
    ensures r.Err? ==> r.error == IoError(NotFound, NOT_FOUND_MESSAGE)
  {
    if path !in fs then Err(IoError(NotFound, NOT_FOUND_MESSAGE))
    else
      var text := fs[path];
      LinesCount(text);
      if '\r' in text then Ok(Lines(text))
      else
        JoinOfLines(text);
        Ok(Lines(text))
  }

  /** `is_file_readable`: the file opens and a one-byte read returns data. */
  predicate IsFileReadable(fs: FileSystem, path: string) {
    path in fs && |fs[path]| > 0
  }
}
