/**
 * count.ts: counts the pending (`metadata.json`) and the migrated
 * (`metadata.json.done`) descriptors under the input folder, and prints
 * both counts and their total.
 */
module Count {
  import opened Strings
  import opened DirTree
  import opened Disk
  import Walker

  /** `json` of count.ts:24 for the tree `entries` under `root`. */
  function PendingCount(root: string, entries: seq<Node>): nat
  {
    CountNamed(Listing(root, entries), MetadataName)
  }

  /** `jsonDone` of count.ts:24 for the tree `entries` under `root`. */
  function DoneCount(root: string, entries: seq<Node>): nat
  {
    CountNamed(Listing(root, entries), DoneName)
  }

  /** The closure state of count.ts:5-6: the two counters `walkDir` increments. */
  class Counter {
    var json: nat
    var jsonDone: nat

    constructor ()
      ensures json == 0 && jsonDone == 0
    {
      json, jsonDone := 0, 0;
    }

    /** `walkDir(dir)` over the listing `entries` of `dir` (count.ts:8-21). */
    method WalkDir(dir: string, entries: seq<Node>)
      modifies this
      decreases entries
      ensures json == old(json) + CountNamed(Listing(dir, entries), MetadataName)
      ensures jsonDone == old(jsonDone) + CountNamed(Listing(dir, entries), DoneName)
    {
      ghost var json0, done0 := json, jsonDone;
      for i := 0 to |entries|
        invariant json == json0 + CountNamed(Listing(dir, entries[..i]), MetadataName)
        invariant jsonDone == done0 + CountNamed(Listing(dir, entries[..i]), DoneName)
      {
        Visit(dir, entries[i]);
        CountStep(dir, entries, i, MetadataName);
        CountStep(dir, entries, i, DoneName);
      }
      assert entries[..|entries|] == entries;
    }

    /** One iteration of the loop of count.ts:9-20. */
    method Visit(dir: string, entry: Node)
      modifies this
      decreases entry
      ensures json == old(json) + CountNamed(Listing(dir, [entry]), MetadataName)
      ensures jsonDone == old(jsonDone) + CountNamed(Listing(dir, [entry]), DoneName)
    {
      var fullPath := Join(dir, entry.name);
      CountSingle(dir, entry, MetadataName);
      CountSingle(dir, entry, DoneName);
      match entry {
        case Dir(_, cs) =>
          WalkDir(fullPath, cs);
        case File(n) =>
          if n == MetadataName {
            json := json + 1;
          } else if n == DoneName {
            jsonDone := jsonDone + 1;
          }
        case Symlink(_) =>
      }
    }
  }

  /**
   * `countMetadataFiles(inputFolder)` (count.ts:4-25): the files named
   * exactly `metadata.json` and exactly `metadata.json.done`, at any depth.
   * No file is counted twice; the main script's walker (main.ts:16) uses the
   * same name test, so `json` is the number of documents it would find; an
   * empty folder gives zero and zero.
   */
  method CountMetadataFiles(inputFolder: string, entries: seq<Node>) returns (json: nat, jsonDone: nat)
    ensures json == PendingCount(inputFolder, entries)
    ensures jsonDone == DoneCount(inputFolder, entries)
    ensures json == |Walker.MetadataPaths(inputFolder, entries)|
    ensures json + jsonDone <= |Listing(inputFolder, entries)|
    ensures entries == [] ==> json == 0 && jsonDone == 0
  {
    var counter := new Counter();
    counter.WalkDir(inputFolder, entries);
    json, jsonDone := counter.json, counter.jsonDone;
    CountIsLength(Listing(inputFolder, entries), MetadataName);
    CountsDisjoint(Listing(inputFolder, entries), MetadataName, DoneName);
  }

  /** The total printed by count.ts:35. */
  function Total(json: nat, jsonDone: nat): nat
  {
    json + jsonDone
  }

  /** In a real tree a count by name is the number of live paths whose last component is that name. */
  lemma CountOfPaths(root: string, entries: seq<Node>, n: string)
    requires WellFormed(entries)
    ensures CountNamed(Listing(root, entries), n) ==
            |WithBasename(PathSet(Listing(root, entries)), n)|
  {
    var files := Listing(root, entries);
    ListingDistinct(root, entries);
    CountIsCardinality(files, n);
    forall e | e in files ensures ValidName(e.name) {
      ListedNamesValid(root, entries, e);
    }
    NamedByBasename(files, n);
  }

  /**
   * Renaming one pending descriptor `p` to `p.done` (main.ts:241), seen by a
   * later count of the same folder: `json` drops by one and `jsonDone` grows
   * by one, so the printed total is unchanged. Were a `metadata.json.done`
   * already next to it, the rename would replace it and the total would
   * drop by one instead.
   */
  lemma {:induction false} RenameShiftsCounts(root: string, before: seq<Node>, after: seq<Node>, p: string)
    requires WellFormed(before) && WellFormed(after)
    requires p in PathSet(Listing(root, before)) && Basename(p) == MetadataName
    requires PathSet(Listing(root, after)) == Moved(PathSet(Listing(root, before)), Move(p, p + DoneSuffix))
    ensures PendingCount(root, after) == PendingCount(root, before) - 1
    ensures DoneCount(root, after) ==
            DoneCount(root, before) + (if p + DoneSuffix in PathSet(Listing(root, before)) then 0 else 1)
    ensures p + DoneSuffix !in PathSet(Listing(root, before)) ==>
            Total(PendingCount(root, after), DoneCount(root, after)) ==
            Total(PendingCount(root, before), DoneCount(root, before))
  {
    var a, b := PathSet(Listing(root, before)), PathSet(Listing(root, after));
    BasenameAppend(p, DoneSuffix);
    DoneNameIsSuffixed();
    assert Basename(p + DoneSuffix) == DoneName;
    CountOfPaths(root, before, MetadataName);
    CountOfPaths(root, after, MetadataName);
    CountOfPaths(root, before, DoneName);
    CountOfPaths(root, after, DoneName);
    MovedByName(a, b, p, p + DoneSuffix);
  }

  /** The live-path form of the rename: one path leaves the pending names, one joins the done ones. */
  lemma MovedByName(a: set<string>, b: set<string>, p: string, p': string)
    requires p in a && Basename(p) == MetadataName && Basename(p') == DoneName
    requires b == Moved(a, Move(p, p'))
    ensures |WithBasename(b, MetadataName)| == |WithBasename(a, MetadataName)| - 1
    ensures |WithBasename(b, DoneName)| ==
            |WithBasename(a, DoneName)| + (if p' in a then 0 else 1)
  {
    assert p != p';
    MovedOut(a, b, p, p', WithBasename(a, MetadataName), WithBasename(b, MetadataName));
    MovedIn(a, b, p, p', WithBasename(a, DoneName), WithBasename(b, DoneName));
  }

  lemma MovedOut(a: set<string>, b: set<string>, p: string, p': string, na: set<string>, nb: set<string>)
    requires p in a && p != p' && b == a - {p} + {p'}
    requires Basename(p) == MetadataName && Basename(p') == DoneName
    requires na == WithBasename(a, MetadataName)
    requires nb == WithBasename(b, MetadataName)
    ensures |nb| == |na| - 1
  {
    assert nb == na - {p};
  }

  lemma MovedIn(a: set<string>, b: set<string>, p: string, p': string, na: set<string>, nb: set<string>)
    requires p in a && p != p' && b == a - {p} + {p'}
    requires Basename(p) == MetadataName && Basename(p') == DoneName
    requires na == WithBasename(a, DoneName)
    requires nb == WithBasename(b, DoneName)
    ensures |nb| == |na| + (if p' in a then 0 else 1)
  {
    assert nb == na + {p'};
    if p' in a {
      assert p' in na;
      assert nb == na;
    } else {
      assert p' !in na;
    }
  }
}
