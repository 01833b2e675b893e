/**
 * The part of java.io.File the resolver relies on, over an abstract snapshot of
 * the filesystem. Paths are plain strings; nothing is canonicalised, so "a//b",
 * "a/./b" and symbolic links are all distinct from "a/b".
 */
module Files {

  /** A path that java.io.File on a Unix host calls absolute. */
  predicate IsAbsolute(path: string) {
    |path| > 0 && path[0] == '/'
  }

  /**
   * Joining a directory and a URL, as `new File(directory, url)` is used by the
   * resolver: the two strings side by side, without normalisation.
   */
  function Join(directory: string, url: string): string {
    directory + url
  }

  /**
   * The absolute paths that exist, those of them that are directories, and the
   * working directory that relative paths are resolved against.
   */
  datatype FileSystem = FileSystem(paths: set<string>, directories: set<string>, workingDirectory: string)
  {
    /** File.getAbsolutePath: an absolute path as it is, a relative one under the working directory. */
    function AbsolutePath(path: string): string {
      if IsAbsolute(path) then path
      else if path == "" then workingDirectory
      else if workingDirectory == "/" then workingDirectory + path
      else workingDirectory + "/" + path
    }

    /** File.exists: the empty path never exists, whatever the working directory. */
    predicate Exists(path: string) {
      path != "" && AbsolutePath(path) in paths
    }

    /** File.isDirectory: true only of a path that exists and is a directory. */
    predicate IsDirectory(path: string) {
      Exists(path) && AbsolutePath(path) in directories
    }
  }

  /**
   * Under an absolute working directory, getAbsolutePath yields an absolute path
   * and is idempotent, so the path it returns for a non-empty path names the
   * same file.
   */
  lemma AbsolutePathIsFixed(fs: FileSystem, path: string)
    ensures IsAbsolute(fs.workingDirectory) ==> IsAbsolute(fs.AbsolutePath(path))
    ensures IsAbsolute(fs.workingDirectory) ==> fs.AbsolutePath(fs.AbsolutePath(path)) == fs.AbsolutePath(path)
    ensures IsAbsolute(fs.workingDirectory) && path != "" ==> fs.Exists(fs.AbsolutePath(path)) == fs.Exists(path)
  {
  }
}
