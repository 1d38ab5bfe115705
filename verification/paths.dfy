/** Paths as sequences of parts, in the way `pathlib` splits and prints them. */
module Paths {
  import opened Strings

  type Parts = seq<string>

  /** `Path.as_posix()`: an absolute path carries "/" as its first part. */
  function Posix(parts: Parts): string {
    if |parts| > 0 && parts[0] == "/" then "/" + Join(parts[1..], '/') else Join(parts, '/')
  }

  /** `Path.name`. */
  function Name(parts: Parts): string {
    if |parts| == 0 || parts[|parts| - 1] == "/" then "" else parts[|parts| - 1]
  }

  /** `str.rfind(".")`. */
  function LastDot(name: string): (i: int)
    ensures -1 <= i < |name|
    ensures i >= 0 ==> name[i] == '.'
    ensures forall k :: i < k < |name| ==> name[k] != '.'
  {
    if name == "" then -1
    else if name[|name| - 1] == '.' then |name| - 1
    else LastDot(name[..|name| - 1])
  }

  /** `Path.suffix.casefold()`: from the last dot on, unless that dot starts or ends the name. */
  function LowerSuffix(parts: Parts): string {
    var name := Name(parts);
    var i := LastDot(name);
    if 0 < i < |name| - 1 then Lower(name[i..]) else ""
  }

  predicate HasPart(parts: Parts, names: set<string>) {
    exists part :: part in parts && part in names
  }

  function LowerParts(parts: Parts): Parts {
    seq(|parts|, i requires 0 <= i < |parts| => Lower(parts[i]))
  }

  /** The parts of a path relative to some root: present, and free of separators. */
  predicate IsRelative(parts: Parts) {
    && parts != []
    && forall i :: 0 <= i < |parts| ==> parts[i] != "" && '/' !in parts[i]
  }

  // ----- What these mean, said in other terms

  lemma NameMeans(parent: Parts, name: string)
    ensures name != "/" ==> Name(parent + [name]) == name
    ensures Name([]) == "" && Name(["/"]) == ""
  {
  }

  /** The POSIX text of a path grows by one part at a time. */
  lemma PosixMeans(parent: Parts, name: string)
    requires name != "/"
    ensures Posix([]) == "" && Posix(["/"]) == "/" && Posix([name]) == name
    ensures parent == ["/"] ==> Posix(parent + [name]) == "/" + name
    ensures parent != [] && parent != ["/"] ==> Posix(parent + [name]) == Posix(parent) + "/" + name
  {
    hide Join;
    JoinOfOne(name, '/');
    assert ["/"][1..] == [];
    if parent != [] {
      assert (parent + [name])[1..] == parent[1..] + [name];
      if parent[0] != "/" {
        JoinAppend(parent, [name], '/');
      } else if parent != ["/"] {
        assert parent == ["/"] + parent[1..];
        JoinAppend(parent[1..], [name], '/');
      } else {
        assert parent[1..] + [name] == [name];
      }
    }
  }

  /** A suffix is what follows the last dot of a name that has something on both sides of it. */
  lemma LowerSuffixMeans(path: Parts, stem: string, extension: string)
    requires Name(path) == stem + "." + extension && '.' !in extension
    ensures LowerSuffix(path) == if stem == "" || extension == "" then "" else Lower("." + extension)
  {
    var name := Name(path);
    assert name[|stem|] == '.';
    assert forall k :: |stem| < k < |name| ==> name[k] == extension[k - |stem| - 1];
    assert LastDot(name) == |stem|;
    assert name[|stem|..] == "." + extension;
  }

  lemma NoDotNoSuffix(path: Parts)
    requires '.' !in Name(path)
    ensures LowerSuffix(path) == ""
  {
    assert forall k :: 0 <= k < |Name(path)| ==> Name(path)[k] in Name(path);
  }

  lemma RootKeepsName(root: Parts, relative: Parts)
    requires IsRelative(relative)
    ensures Name(root + relative) == Name(relative)
    ensures LowerSuffix(root + relative) == LowerSuffix(relative)
  {
    assert (root + relative)[|root + relative| - 1] == relative[|relative| - 1];
  }
}
