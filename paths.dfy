/** UTF-8 path helpers: joining two path parts and taking the last
    component. Paths use '/' as their only separator. */
module Paths {

  const Separator: char := '/'

  /** PathTraitsUTF8::Build: join two parts with one separator; an empty
      part contributes nothing. */
  function Build(a: string, b: string): string {
    if a == "" then b
    else if b == "" then a
    else a + [Separator] + b
  }

  /** PathTraitsUTF8::GetBase: the text after the last separator, or the
      whole path when it has none. */
  function GetBase(path: string): (r: string)
    ensures Separator !in r
    ensures |r| <= |path| && path[|path| - |r|..] == r
    ensures |r| < |path| ==> path[|path| - |r| - 1] == Separator
  {
    if path == [] then []
    else if path[|path| - 1] == Separator then []
    else
      var r := GetBase(path[..|path| - 1]);
      assert path[..|path| - 1][|path| - 1 - |r|..] + [path[|path| - 1]] == path[|path| - |r| - 1..];
      r + [path[|path| - 1]]
  }

  /** The base name of `directory/name` is the base name of `name`: showing
      a full path in base-name mode shows what the name alone shows. */
  lemma {:induction false} GetBaseOfJoin(directory: string, name: string)
    ensures GetBase(directory + [Separator] + name) == GetBase(name)
  {
    var p := directory + [Separator] + name;
    if name == [] {
      assert p[|p| - 1] == Separator;
    } else {
      assert p[..|p| - 1] == directory + [Separator] + name[..|name| - 1];
      assert p[|p| - 1] == name[|name| - 1];
      GetBaseOfJoin(directory, name[..|name| - 1]);
    }
  }
}
