/** POSIX-style path helpers, as far as the tool relies on them: the last
    path segment (`path.basename`) and joining a directory with an entry
    name (`path.join`). Normalisation of `.`, `..` and repeated separators
    is not modelled. */
module Paths {
  import opened Basics
  import opened Strings

  const Separator: char := '/'

  /** The part of `p` after its last separator; all of `p` when it has none. */
  function Basename(p: string): (r: string)
    ensures Separator !in r
    ensures EndsWith(p, r)
    ensures |r| == |p| || p[|p| - |r| - 1] == Separator
  {
    match LastIndexOf(p, Separator)
    case None => p
    case Some(i) => p[i + 1..]
  }

  /** `dir` and `name` joined by exactly one separator; an empty `dir`
      contributes nothing. */
  function Join(dir: string, name: string): string {
    if dir == "" then name
    else if EndsWith(dir, [Separator]) then dir + name
    else dir + [Separator] + name
  }

  lemma JoinShape(dir: string, name: string)
    ensures EndsWith(Join(dir, name), name)
    ensures dir != "" ==> |Join(dir, name)| > |name| && Join(dir, name)[|Join(dir, name)| - |name| - 1] == Separator
    ensures dir == "" ==> Join(dir, name) == name
  {
  }

  /** Basename undoes Join for a directory-entry name. */
  lemma BasenameOfJoin(dir: string, name: string)
    requires Separator !in name
    ensures Basename(Join(dir, name)) == name
  {
    JoinShape(dir, name);
    var p := Join(dir, name);
    var b := Basename(p);
    if |b| < |name| {
      // the character of `name` just before `b` would be a separator
      assert false;
    } else if |b| > |name| {
      // then `b` would contain the separator that precedes `name` in `p`
      assert false;
    }
  }

  /** Distinct entry names are joined to distinct paths under one directory. */
  lemma JoinInjective(dir: string, a: string, b: string)
    requires Separator !in a && Separator !in b
    requires Join(dir, a) == Join(dir, b)
    ensures a == b
  {
    BasenameOfJoin(dir, a);
    BasenameOfJoin(dir, b);
  }
}
