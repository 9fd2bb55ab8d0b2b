/** Host paths as the pipeline builds them with Node's `path.join`. */
module Paths {

  /** `path.join(dir, name)` for a single path segment `name`: an empty `dir`
      contributes nothing, and no second separator is added after a trailing one.
      Further normalisation (`.`, `..`, repeated separators) is not modelled. */
  function Join(dir: string, name: string): string {
    if dir == [] then name
    else if dir[|dir| - 1] == '/' then dir + name
    else dir + "/" + name
  }

  /** The joined path names `name` directly inside `dir`: it is `dir`, then
      at most one added separator, then `name`; unless `dir` is empty a
      separator stands right before `name`; an empty `dir` contributes
      nothing; and no separator is added after a trailing one. */
  lemma JoinUnder(dir: string, name: string)
    ensures dir <= Join(dir, name)
    ensures |name| <= |Join(dir, name)| && Join(dir, name)[|Join(dir, name)| - |name|..] == name
    ensures Join(dir, name) == dir + name || Join(dir, name) == dir + "/" + name
    ensures dir != [] ==> Join(dir, name)[|Join(dir, name)| - |name| - 1] == '/'
    ensures dir == [] ==> Join(dir, name) == name
    ensures dir != [] && dir[|dir| - 1] == '/' ==> Join(dir, name) == dir + name
  {
  }
}
