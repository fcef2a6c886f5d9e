/** `os.path.join` on POSIX, with the two arguments both services pass it. */
module PosixPath {
  import Strings

  predicate IsAbsolute(name: string)
  {
    |name| > 0 && name[0] == '/'
  }

  /**
   * `os.path.join(base, name)`: an absolute `name` replaces `base`;
   * otherwise `name` is appended after exactly one `/` (none is added when
   * `base` is empty or already ends in `/`). Either way the path ends with
   * the name and is no longer than the two with a separator.
   */
  function Join(base: string, name: string): (path: string)
    ensures IsAbsolute(name) ==> path == name
    ensures |name| <= |path| <= |base| + 1 + |name|
  {
    if IsAbsolute(name) then name
    else if base == "" || base[|base| - 1] == '/' then base + name
    else base + "/" + name
  }

  /**
   * What a joined path looks like: a relative name stays under `base`,
   * separated by at most one added `/`, and the path always ends with the
   * name.
   */
  lemma JoinShape(base: string, name: string)
    ensures !IsAbsolute(name) ==> Join(base, name)[..|base|] == base
    ensures !IsAbsolute(name) && base != "" ==> Join(base, name)[|base| - 1] == '/' || (|base| < |Join(base, name)| && Join(base, name)[|base|] == '/')
    ensures Strings.EndsWith(Join(base, name), name)
    // exactly one separator between base and name: none is added when base is empty or already ends in '/'
    ensures !IsAbsolute(name) ==> |Join(base, name)| == |base| + |name| + (if base == "" || base[|base| - 1] == '/' then 0 else 1)
  {
  }
}
