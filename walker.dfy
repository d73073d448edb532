/**
 * `getMetadataPaths` (main.ts:7-24): the recursive walk that collects the
 * paths of every pending descriptor under the input folder.
 */
module Walker {
  import opened Strings
  import opened DirTree

  /** The paths a walk of `root` collects: every file named `metadata.json`, in walk order. */
  function MetadataPaths(root: string, entries: seq<Node>): seq<string>
  {
    PathsNamed(Listing(root, entries), MetadataName)
  }

  /** The closure state of main.ts:8: the shared `metadataPaths` array that `walkDir` pushes to. */
  class PathCollector {
    var paths: seq<string>

    constructor ()
      ensures paths == []
    {
      paths := [];
    }

    /** `walkDir(dir)` over the listing `entries` of `dir` (main.ts:11-20). */
    method WalkDir(dir: string, entries: seq<Node>)
      modifies this
      decreases entries
      ensures paths == old(paths) + PathsNamed(Listing(dir, entries), MetadataName)
    {
      ghost var start := paths;
      for i := 0 to |entries|
        invariant paths == start + PathsNamed(Listing(dir, entries[..i]), MetadataName)
      {
        Visit(dir, entries[i]);
        NamedStep(dir, entries, i, MetadataName);
      }
      assert entries[..|entries|] == entries;
    }

    /** One iteration of the loop of main.ts:12-19. */
    method Visit(dir: string, entry: Node)
      modifies this
      decreases entry
      ensures paths == old(paths) + PathsNamed(Listing(dir, [entry]), MetadataName)
    {
      var fullPath := Join(dir, entry.name);
      NamedSingle(dir, entry, MetadataName);
      match entry {
        case Dir(n, cs) =>
          WalkDir(fullPath, cs);
        case File(n) =>
          if n == MetadataName {
            paths := paths + [fullPath];
          }
        case Symlink(_) =>
      }
    }
  }

  /**
   * `getMetadataPaths(inputFolder)`: the paths of exactly the files named
   * `metadata.json` at any depth, each as its `/`-joined path, in walk order.
   */
  method GetMetadataPaths(inputFolder: string, entries: seq<Node>) returns (paths: seq<string>)
    ensures paths == MetadataPaths(inputFolder, entries)
    ensures forall p :: p in paths <==>
      exists e :: FileAt(inputFolder, entries, e) && e.name == MetadataName && e.Path() == p
    ensures entries == [] ==> paths == []
  {
    var collector := new PathCollector();
    collector.WalkDir(inputFolder, entries);
    paths := collector.paths;
    forall p ensures p in paths <==>
      exists e :: FileAt(inputFolder, entries, e) && e.name == MetadataName && e.Path() == p
    {
      PathsNamedExactly(Listing(inputFolder, entries), MetadataName, p);
      forall e {
        ListingComplete(inputFolder, entries, e);
      }
    }
  }

  /**
   * In a real directory tree every collected path names a file called
   * exactly `metadata.json` (never `metadata.json.done`), in the directory
   * the path leads to.
   */
  lemma WalkerPathShape(root: string, entries: seq<Node>, p: string)
    requires WellFormed(entries)
    requires p in MetadataPaths(root, entries)
    ensures exists e :: e in Listing(root, entries) && e.name == MetadataName && p == Join(e.dir, MetadataName)
    ensures Basename(p) == MetadataName
    ensures p in PathSet(Listing(root, entries))
  {
    PathsNamedExactly(Listing(root, entries), MetadataName, p);
    var e :| e in Listing(root, entries) && e.name == MetadataName && e.Path() == p;
    JoinSplit(e.dir, MetadataName);
  }

  /** A walk of a real directory tree returns no path twice. */
  lemma {:induction false} WalkerNoDuplicates(root: string, entries: seq<Node>)
    requires WellFormed(entries)
    ensures NoDuplicates(MetadataPaths(root, entries))
  {
    ListingDistinct(root, entries);
    SelectedDistinct(Listing(root, entries), MetadataName);
  }

  /** In a real directory tree the walk collects exactly the live paths whose last component is `metadata.json`. */
  lemma WalkerFinds(root: string, entries: seq<Node>, p: string)
    requires WellFormed(entries)
    ensures p in MetadataPaths(root, entries) <==>
            p in PathSet(Listing(root, entries)) && Basename(p) == MetadataName
  {
    var files := Listing(root, entries);
    PathsNamedExactly(files, MetadataName, p);
    forall e | e in files ensures ValidName(e.name) {
      ListedNamesValid(root, entries, e);
    }
    NamedByBasename(files, MetadataName);
    assert p in NamedPathSet(files, MetadataName) <==> exists e :: e in files && e.name == MetadataName && e.Path() == p;
  }
}
