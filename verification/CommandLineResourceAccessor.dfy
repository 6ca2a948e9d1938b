/**
  The command-line resource accessor: a class-loader accessor with one extra
  fallback. A path that starts with "/" is also tried without that slash.
  The class-loader lookups it delegates to (`super.openStreams`,
  `super.list`) are parameters here.
 */
module CommandLineResourceAccessor {
  import opened Wrappers
  import opened SortedStrings

  predicate StartsWithSlash(path: string) {
    |path| > 0 && path[0] == '/'
  }

  /** `getAlternatePaths`: at most one alternate, the path with its single
      leading slash removed, and none for a path without one. */
  function AlternatePaths(path: string): (alternates: seq<string>)
    ensures |alternates| <= 1
    ensures alternates == [] <==> !StartsWithSlash(path)
    ensures forall alternate :: alternate in alternates ==> "/" + alternate == path
  {
    if StartsWithSlash(path) then [path[1..]] else []
  }

  /** The result for the first path, in list order, that the lookup finds. */
  function FirstFound<T>(open: string -> Option<T>, paths: seq<string>): (found: Option<T>)
    decreases |paths|
    ensures found.None? <==> forall i :: 0 <= i < |paths| ==> open(paths[i]).None?
    ensures found.Some? ==>
      exists i :: 0 <= i < |paths| && found == open(paths[i]) && forall j :: 0 <= j < i ==> open(paths[j]).None?
  {
    if |paths| == 0 then None
    else if open(paths[0]).Some? then open(paths[0])
    else FirstFound(open, paths[1..])
  }

  /** A path the lookup finds after only misses is the one `FirstFound` picks. */
  lemma {:induction false} FirstFoundAt<T>(open: string -> Option<T>, paths: seq<string>, i: nat)
    requires i < |paths| && open(paths[i]).Some?
    requires forall j :: 0 <= j < i ==> open(paths[j]).None?
    ensures FirstFound(open, paths) == open(paths[i])
    decreases i
  {
    if i > 0 {
      FirstFoundAt(open, paths[1..], i - 1);
    }
  }

  /** `openStreams`: the lookup's own result for `path` when it has one, and
      otherwise the first alternate the lookup finds, tried in order.
      `consulted` lists the paths handed to the lookup, in order: the
      alternates are not tried once `path` itself is found. */
  method OpenStreams<T>(open: string -> Option<T>, path: string) returns (streams: Option<T>, ghost consulted: seq<string>)
    ensures streams == FirstFound(open, [path] + AlternatePaths(path))
    ensures open(path).Some? ==> streams == open(path) && consulted == [path]
    ensures !StartsWithSlash(path) ==> streams == open(path)
    ensures consulted <= [path] + AlternatePaths(path)
  {
    streams := open(path);
    consulted := [path];
    if streams.None? {
      var alternates := AlternatePaths(path);
      for i := 0 to |alternates|
        invariant streams.None?
        invariant forall j :: 0 <= j < i ==> open(alternates[j]).None?
        invariant consulted == [path] + alternates[..i]
      {
        streams := open(alternates[i]);
        consulted := consulted + [alternates[i]];
        assert alternates[..i + 1] == alternates[..i] + [alternates[i]];
        if streams.Some? {
          FirstFoundAt(open, [path] + alternates, i + 1);
          return;
        }
      }
    }
  }

  /** `super.list(path, includeFiles, includeDirectories, recursive)`. */
  type Lister = (string, bool, bool, bool) -> Option<set<string>>

  /** The names the lookup lists for each of `paths`, all together; every
      one of those listings must be non-null. */
  function ListedUnder(list: Lister, paths: seq<string>, includeFiles: bool, includeDirectories: bool, recursive: bool): (names: set<string>)
    requires forall p :: p in paths ==> list(p, includeFiles, includeDirectories, recursive).Some?
    decreases |paths|
    ensures forall name :: name in names <==>
      exists i :: 0 <= i < |paths| && name in list(paths[i], includeFiles, includeDirectories, recursive).value
  {
    if |paths| == 0 then {}
    else
      ListedUnder(list, paths[..|paths| - 1], includeFiles, includeDirectories, recursive)
      + list(paths[|paths| - 1], includeFiles, includeDirectories, recursive).value
  }

  /** Everything `list` gathers for `path`: its own listing when that is
      non-null, together with the listing of each alternate. */
  function Gathered(list: Lister, path: string, includeFiles: bool, includeDirectories: bool, recursive: bool): (names: set<string>)
    requires forall p :: p in AlternatePaths(path) ==> list(p, includeFiles, includeDirectories, recursive).Some?
    ensures list(path, includeFiles, includeDirectories, recursive).Some? ==>
      list(path, includeFiles, includeDirectories, recursive).value <= names
    ensures forall name :: name in names <==>
      || (list(path, includeFiles, includeDirectories, recursive).Some?
          && name in list(path, includeFiles, includeDirectories, recursive).value)
      || (StartsWithSlash(path) && name in list(path[1..], includeFiles, includeDirectories, recursive).value)
  {
    var own := list(path, includeFiles, includeDirectories, recursive);
    (if own.Some? then own.value else {})
    + ListedUnder(list, AlternatePaths(path), includeFiles, includeDirectories, recursive)
  }

  /** `list`: the names gathered for `path` and its alternates, in ascending
      order and without duplicates, or null when there are none at all. The
      listing of an alternate is not checked for null, so it must not be. */
  method List(list: Lister, path: string, includeFiles: bool, includeDirectories: bool, recursive: bool)
    returns (contents: Option<seq<string>>)
    requires forall p :: p in AlternatePaths(path) ==> list(p, includeFiles, includeDirectories, recursive).Some?
    ensures contents.None? <==> Gathered(list, path, includeFiles, includeDirectories, recursive) == {}
    ensures contents.Some? ==> contents.value != []
    ensures contents.Some? ==> StrictlySorted(contents.value)
    ensures contents.Some? ==> forall name :: name in contents.value <==>
      name in Gathered(list, path, includeFiles, includeDirectories, recursive)
  {
    var sorted := new TreeSet();
    var superList := list(path, includeFiles, includeDirectories, recursive);
    if superList.Some? {
      sorted.AddAll(superList.value);
    }
    var alternates := AlternatePaths(path);
    for i := 0 to |alternates|
      invariant sorted.Valid()
      invariant sorted.Contents() == (if superList.Some? then superList.value else {})
        + ListedUnder(list, alternates[..i], includeFiles, includeDirectories, recursive)
    {
      assert alternates[..i + 1][..i] == alternates[..i];
      sorted.AddAll(list(alternates[i], includeFiles, includeDirectories, recursive).value);
    }
    assert alternates[..|alternates|] == alternates;
    assert sorted.Contents() == Gathered(list, path, includeFiles, includeDirectories, recursive);
    if sorted.IsEmpty() {
      return None;
    }
    return Some(sorted.elements);
  }
}
