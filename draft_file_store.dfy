/**
 * The local image file of a draft: path normalisation and the two guarded filesystem
 * calls. The filesystem is an oracle value: the files present, and the paths on which
 * `exists` or `unlink` throws.
 */
module DraftFileStore {
  import opened Wrappers
  import opened Strings

  const FileScheme: string := "file://"

  /** `normalizeFilePath(uriOrPath)`: absent or empty gives null; a leading `file://` is dropped. */
  function NormalizeFilePath(uriOrPath: Option<string>): (r: Option<string>)
    ensures uriOrPath.None? || uriOrPath.value == "" ==> r.None?
    ensures uriOrPath.Some? && uriOrPath.value != "" && StartsWith(uriOrPath.value, FileScheme) ==>
              r == Some(uriOrPath.value[|FileScheme|..])
    ensures uriOrPath.Some? && uriOrPath.value != "" && !StartsWith(uriOrPath.value, FileScheme) ==>
              r == uriOrPath
  {
    match uriOrPath
    case None => None
    case Some(p) =>
      if p == "" then None
      else if StartsWith(p, FileScheme) then
        ReplaceFirstOfPrefix(p, FileScheme, "");
        assert "" + p[|FileScheme|..] == p[|FileScheme|..];
        Some(ReplaceFirst(p, FileScheme, ""))
      else Some(p)
  }

  /** A bare `file://` normalises to the empty path, not to null; the `!path` guards below catch it. */
  lemma BareSchemeGivesEmptyPath()
    ensures NormalizeFilePath(Some(FileScheme)) == Some("")
  {
  }

  datatype FileSystem = FileSystem(files: set<string>, existsThrows: set<string>, unlinkThrows: set<string>)

  /** `if (!path)`: null or empty. */
  predicate Falsy(path: Option<string>) {
    path.None? || path.value == ""
  }

  /** `fileExists(uriOrPath)`: false for a falsy path (no filesystem call) and when `exists` throws. */
  function FileExists(uriOrPath: Option<string>, fs: FileSystem): (r: bool)
    ensures Falsy(NormalizeFilePath(uriOrPath)) ==> !r
    ensures !Falsy(NormalizeFilePath(uriOrPath)) ==>
              var p := NormalizeFilePath(uriOrPath).value;
              r <==> p !in fs.existsThrows && p in fs.files
  {
    var path := NormalizeFilePath(uriOrPath);
    if path.None? || path.value == "" then false
    else if path.value in fs.existsThrows then false
    else path.value in fs.files
  }

  /** `deleteFileIfExists(uriOrPath)`: never throws; removes at most the normalised path. */
  function DeleteFileIfExists(uriOrPath: Option<string>, fs: FileSystem): (r: FileSystem)
    ensures r.existsThrows == fs.existsThrows && r.unlinkThrows == fs.unlinkThrows
    ensures r.files <= fs.files
    ensures Falsy(NormalizeFilePath(uriOrPath)) ==> r == fs
    ensures !Falsy(NormalizeFilePath(uriOrPath)) ==>
              var p := NormalizeFilePath(uriOrPath).value;
              && (p !in fs.files ==> r == fs)
              && r.files == if p !in fs.existsThrows && p !in fs.unlinkThrows then fs.files - {p} else fs.files
  {
    var path := NormalizeFilePath(uriOrPath);
    if path.None? || path.value == "" then fs
    else if path.value in fs.existsThrows then fs
    else if path.value !in fs.files then fs
    else if path.value in fs.unlinkThrows then fs
    else fs.(files := fs.files - {path.value})
  }

  /** After a delete that did not fail, the file no longer exists. */
  lemma DeletedFileIsGone(uriOrPath: Option<string>, fs: FileSystem)
    requires !Falsy(NormalizeFilePath(uriOrPath))
    requires NormalizeFilePath(uriOrPath).value !in fs.unlinkThrows
    ensures !FileExists(uriOrPath, DeleteFileIfExists(uriOrPath, fs))
  {
  }

  /** Deleting twice is deleting once. */
  lemma DeleteIdempotent(uriOrPath: Option<string>, fs: FileSystem)
    ensures DeleteFileIfExists(uriOrPath, DeleteFileIfExists(uriOrPath, fs)) == DeleteFileIfExists(uriOrPath, fs)
  {
  }
}
