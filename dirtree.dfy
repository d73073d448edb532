/**
 * The directory tree the three scripts walk, and the walk order they share.
 *
 * Each script has its own copy of a recursive `walkDir(dir)` (main.ts:11-20,
 * count.ts:8-21, undo.ts:4-20): it lists `dir`, builds `${dir}/${entry.name}`
 * for every entry, descends into directories, and looks at regular files by
 * name. Symbolic links are neither, so every walk skips them. `Listing`
 * is the sequence of regular files such a walk meets, in the order it meets
 * them; the walkers of the scripts are proved against it.
 */
module DirTree {
  import opened Strings

  /** The descriptor file name that marks a pending document. */
  const MetadataName: string := "metadata.json"
  /** The suffix main.ts appends to a migrated descriptor. */
  const DoneSuffix: string := ".done"
  /** The descriptor file name that marks a migrated document. */
  const DoneName: string := "metadata.json.done"

  /** The migrated descriptor's name is the pending one's with the suffix appended. */
  lemma DoneNameIsSuffixed()
    ensures MetadataName + DoneSuffix == DoneName
    ensures '/' !in DoneSuffix
  {
    assert DoneSuffix == ".done";
  }

  /** One entry of a directory listing, as `Deno.readDir` reports it. */
  datatype Node =
    | File(name: string)
    | Dir(name: string, children: seq<Node>)
    | Symlink(name: string)

  /** A regular file met by a walk: the directory path it was listed in, and its name. */
  datatype FileEntry = FileEntry(dir: string, name: string)
  {
    /** The `fullPath` the walk builds for it. */
    function Path(): string { Join(dir, name) }
  }

  /** The regular files under `dir` (whose listing is `entries`), in walk order. */
  function Listing(dir: string, entries: seq<Node>): seq<FileEntry>
    decreases entries
  {
    if entries == [] then []
    else
      Listing(dir, entries[..|entries| - 1]) +
      match entries[|entries| - 1]
      case File(n) => [FileEntry(dir, n)]
      case Dir(n, cs) => Listing(Join(dir, n), cs)
      case Symlink(_) => []
  }

  /**
   * `e` is a regular file somewhere under `dir`: listed directly in it, or,
   * at any depth, under one of its sub-directories. An independent
   * description of what a walk reaches, without any order.
   */
  ghost predicate FileAt(dir: string, entries: seq<Node>, e: FileEntry)
    decreases entries, 1
  {
    exists i :: 0 <= i < |entries| && FileVia(dir, entries[i], e)
  }

  /** `e` is the entry `x` of `dir` itself, or a regular file at any depth below it. */
  ghost predicate FileVia(dir: string, x: Node, e: FileEntry)
    decreases x, 0
  {
    match x
    case File(n) => e == FileEntry(dir, n)
    case Dir(n, cs) => FileAt(Join(dir, n), cs, e)
    case Symlink(_) => false
  }

  /** The walk reaches exactly the regular files at any depth under its root. */
  lemma {:induction false} ListingComplete(dir: string, entries: seq<Node>, e: FileEntry)
    decreases entries
    ensures e in Listing(dir, entries) <==> FileAt(dir, entries, e)
  {
    if entries != [] {
      var k := |entries| - 1;
      var init := entries[..k];
      ListingComplete(dir, init, e);
      ListingLast(dir, entries);
      ListingSingle(dir, entries[k]);
      if entries[k].Dir? {
        ListingComplete(Join(dir, entries[k].name), entries[k].children, e);
      }
      assert e in Listing(dir, [entries[k]]) <==> FileVia(dir, entries[k], e);
      FileAtLast(dir, entries, e);
    }
  }

  /** A file under `entries` is under the ones before the last, or via the last. */
  lemma FileAtLast(dir: string, entries: seq<Node>, e: FileEntry)
    requires entries != []
    ensures FileAt(dir, entries, e) <==>
            FileAt(dir, entries[..|entries| - 1], e) || FileVia(dir, entries[|entries| - 1], e)
  {
    var k := |entries| - 1;
    var init := entries[..k];
    if FileAt(dir, init, e) {
      var i :| 0 <= i < |init| && FileVia(dir, init[i], e);
      assert entries[i] == init[i];
    }
    if FileAt(dir, entries, e) {
      var i :| 0 <= i < |entries| && FileVia(dir, entries[i], e);
      if i < k {
        assert entries[i] == init[i];
      }
    }
  }

  /** The last entry's files come after those of the others. */
  lemma ListingLast(dir: string, entries: seq<Node>)
    requires entries != []
    ensures Listing(dir, entries) ==
            Listing(dir, entries[..|entries| - 1]) + Listing(dir, [entries[|entries| - 1]])
  {
    assert [entries[|entries| - 1]][..0] == [];
  }

  /** A step of a walk over the listing of one directory. */
  lemma ListingStep(dir: string, entries: seq<Node>, i: nat)
    requires i < |entries|
    ensures Listing(dir, entries[..i + 1]) == Listing(dir, entries[..i]) + Listing(dir, [entries[i]])
  {
    ListingLast(dir, entries[..i + 1]);
    assert entries[..i + 1][..i] == entries[..i];
  }

  /** What a walk finds through a single entry. */
  lemma ListingSingle(dir: string, x: Node)
    ensures x.File? ==> Listing(dir, [x]) == [FileEntry(dir, x.name)]
    ensures x.Dir? ==> Listing(dir, [x]) == Listing(Join(dir, x.name), x.children)
    ensures x.Symlink? ==> Listing(dir, [x]) == []
  {
    assert [x][..0] == [];
  }

  /** Listing a concatenation of entries lists each part in turn. */
  lemma {:induction false} ListingAppend(dir: string, a: seq<Node>, b: seq<Node>)
    decreases b
    ensures Listing(dir, a + b) == Listing(dir, a) + Listing(dir, b)
  {
    if b == [] {
      assert a + b == a;
    } else {
      var k := |b| - 1;
      assert (a + b)[..|a + b| - 1] == a + b[..k];
      ListingAppend(dir, a, b[..k]);
    }
  }

  /** The paths of the listed files named `n`, in walk order. */
  function PathsNamed(files: seq<FileEntry>, n: string): seq<string>
  {
    if files == [] then []
    else
      var last := files[|files| - 1];
      PathsNamed(files[..|files| - 1], n) + (if last.name == n then [last.Path()] else [])
  }

  /** How many of the listed files are named `n`. */
  function CountNamed(files: seq<FileEntry>, n: string): nat
  {
    if files == [] then 0
    else CountNamed(files[..|files| - 1], n) + (if files[|files| - 1].name == n then 1 else 0)
  }

  /** The set of paths of the listed files. */
  function PathSet(files: seq<FileEntry>): set<string>
  {
    set e | e in files :: e.Path()
  }

  lemma {:induction false} PathsNamedAppend(a: seq<FileEntry>, b: seq<FileEntry>, n: string)
    decreases b
    ensures PathsNamed(a + b, n) == PathsNamed(a, n) + PathsNamed(b, n)
  {
    if b == [] {
      assert a + b == a;
    } else {
      assert (a + b)[..|a + b| - 1] == a + b[..|b| - 1];
      PathsNamedAppend(a, b[..|b| - 1], n);
    }
  }

  lemma {:induction false} CountNamedAppend(a: seq<FileEntry>, b: seq<FileEntry>, n: string)
    decreases b
    ensures CountNamed(a + b, n) == CountNamed(a, n) + CountNamed(b, n)
  {
    if b == [] {
      assert a + b == a;
    } else {
      assert (a + b)[..|a + b| - 1] == a + b[..|b| - 1];
      CountNamedAppend(a, b[..|b| - 1], n);
    }
  }

  /** One step of a walk that collects the paths of the files named `n`. */
  lemma NamedStep(dir: string, entries: seq<Node>, i: nat, n: string)
    requires i < |entries|
    ensures PathsNamed(Listing(dir, entries[..i + 1]), n) ==
            PathsNamed(Listing(dir, entries[..i]), n) + PathsNamed(Listing(dir, [entries[i]]), n)
  {
    ListingStep(dir, entries, i);
    PathsNamedAppend(Listing(dir, entries[..i]), Listing(dir, [entries[i]]), n);
  }

  /** What that walk collects through a single entry. */
  lemma NamedSingle(dir: string, x: Node, n: string)
    ensures x.File? ==> PathsNamed(Listing(dir, [x]), n) == (if x.name == n then [Join(dir, x.name)] else [])
    ensures x.Dir? ==> PathsNamed(Listing(dir, [x]), n) == PathsNamed(Listing(Join(dir, x.name), x.children), n)
    ensures x.Symlink? ==> PathsNamed(Listing(dir, [x]), n) == []
  {
    ListingSingle(dir, x);
    if x.File? {
      assert [FileEntry(dir, x.name)][..0] == [];
    }
  }

  /** One step of a walk that counts the files named `n`. */
  lemma CountStep(dir: string, entries: seq<Node>, i: nat, n: string)
    requires i < |entries|
    ensures CountNamed(Listing(dir, entries[..i + 1]), n) ==
            CountNamed(Listing(dir, entries[..i]), n) + CountNamed(Listing(dir, [entries[i]]), n)
  {
    ListingStep(dir, entries, i);
    CountNamedAppend(Listing(dir, entries[..i]), Listing(dir, [entries[i]]), n);
  }

  /** What that walk counts through a single entry. */
  lemma CountSingle(dir: string, x: Node, n: string)
    ensures x.File? ==> CountNamed(Listing(dir, [x]), n) == (if x.name == n then 1 else 0)
    ensures x.Dir? ==> CountNamed(Listing(dir, [x]), n) == CountNamed(Listing(Join(dir, x.name), x.children), n)
    ensures x.Symlink? ==> CountNamed(Listing(dir, [x]), n) == 0
  {
    ListingSingle(dir, x);
    if x.File? {
      assert [FileEntry(dir, x.name)][..0] == [];
    }
  }

  /** `PathsNamed` keeps exactly the paths of the files with that name. */
  lemma {:induction false} PathsNamedExactly(files: seq<FileEntry>, n: string, p: string)
    ensures p in PathsNamed(files, n) <==> exists e :: e in files && e.name == n && e.Path() == p
  {
    if files != [] {
      var init := files[..|files| - 1];
      PathsNamedExactly(init, n, p);
      assert files == init + [files[|files| - 1]];
    }
  }

  /** Counting the files named `n` gives the length of the list of their paths. */
  lemma {:induction false} CountIsLength(files: seq<FileEntry>, n: string)
    ensures CountNamed(files, n) == |PathsNamed(files, n)|
  {
    if files != [] {
      CountIsLength(files[..|files| - 1], n);
    }
  }

  /** No file is counted under two different names. */
  lemma {:induction false} CountsDisjoint(files: seq<FileEntry>, a: string, b: string)
    requires a != b
    ensures CountNamed(files, a) + CountNamed(files, b) <= |files|
  {
    if files != [] {
      CountsDisjoint(files[..|files| - 1], a, b);
    }
  }

  /** A name a directory can hold: non-empty and free of '/'. */
  predicate ValidName(n: string)
  {
    n != "" && '/' !in n
  }

  /** A real directory tree: valid entry names, no two siblings with the same name. */
  ghost predicate WellFormed(entries: seq<Node>)
    decreases entries
  {
    (forall i :: 0 <= i < |entries| ==> ValidName(entries[i].name)) &&
    (forall i, j :: 0 <= i < j < |entries| ==> entries[i].name != entries[j].name) &&
    (forall i :: 0 <= i < |entries| && entries[i].Dir? ==> WellFormed(entries[i].children))
  }

  /** No two listed files share a path. */
  ghost predicate DistinctPaths(files: seq<FileEntry>)
  {
    forall i, j :: 0 <= i < j < |files| ==> files[i].Path() != files[j].Path()
  }

  /** In a well-formed tree every listed file has a valid name. */
  lemma {:induction false} ListedNamesValid(dir: string, entries: seq<Node>, e: FileEntry)
    requires WellFormed(entries)
    requires e in Listing(dir, entries)
    decreases entries
    ensures ValidName(e.name)
  {
    var k := |entries| - 1;
    if e in Listing(dir, entries[..k]) {
      ListedNamesValid(dir, entries[..k], e);
    } else if entries[k].Dir? {
      ListedNamesValid(Join(dir, entries[k].name), entries[k].children, e);
    }
  }

  /** A path lies at or below `${dir}/${n}`. */
  predicate Under(p: string, dir: string, n: string)
  {
    var q := Join(dir, n);
    |q| <= |p| && p[..|q|] == q && (|p| == |q| || p[|q|] == '/')
  }

  /** Every path a walk of `dir` builds starts with `${dir}/`. */
  lemma {:induction false} ListingBelow(dir: string, entries: seq<Node>, e: FileEntry)
    requires e in Listing(dir, entries)
    decreases entries
    ensures |dir| + 1 <= |e.Path()| && e.Path()[..|dir| + 1] == dir + "/"
  {
    var k := |entries| - 1;
    if e in Listing(dir, entries[..k]) {
      ListingBelow(dir, entries[..k], e);
    } else if entries[k].Dir? {
      var sub := Join(dir, entries[k].name);
      ListingBelow(sub, entries[k].children, e);
      assert e.Path()[..|dir| + 1] == e.Path()[..|sub| + 1][..|dir| + 1];
    }
  }

  /** Every file reached through entry `x` lies at or below `${dir}/${x.name}`. */
  lemma ListingOneUnder(dir: string, x: Node, e: FileEntry)
    requires e in Listing(dir, [x])
    ensures Under(e.Path(), dir, x.name)
  {
    assert [x][..0] == [];
    if x.Dir? {
      var sub := Join(dir, x.name);
      ListingBelow(sub, x.children, e);
      assert e.Path()[..|sub|] == e.Path()[..|sub| + 1][..|sub|];
    }
  }

  /** Every file a walk reaches lies below one of the entries listed at the top. */
  lemma {:induction false} ListingUnder(dir: string, entries: seq<Node>, e: FileEntry)
    requires e in Listing(dir, entries)
    decreases entries
    ensures exists i :: 0 <= i < |entries| && Under(e.Path(), dir, entries[i].name)
  {
    var k := |entries| - 1;
    if e in Listing(dir, entries[..k]) {
      ListingUnder(dir, entries[..k], e);
      var i :| 0 <= i < k && Under(e.Path(), dir, entries[..k][i].name);
      assert entries[..k][i] == entries[i];
    } else {
      assert Listing(dir, [entries[k]]) == Listing(dir, entries[k..]) by {
        assert entries[k..] == [entries[k]];
      }
      assert [entries[k]][..0] == [];
      ListingOneUnder(dir, entries[k], e);
    }
  }

  /** Paths below two different sibling names are different. */
  lemma UnderDistinct(p1: string, p2: string, dir: string, a: string, b: string)
    requires ValidName(a) && ValidName(b) && a != b
    requires Under(p1, dir, a) && Under(p2, dir, b)
    ensures p1 != p2
  {
    var qa, qb := Join(dir, a), Join(dir, b);
    if |a| == |b| {
      assert qa[|dir| + 1..] == a && qb[|dir| + 1..] == b;
      if |p1| == |p2| {
        assert p1[..|qa|] != p2[..|qa|];
      }
    } else if |a| < |b| {
      if |p1| != |qa| {
        assert p1[|qa|] == '/';
        assert p2[|qa|] == qb[|qa|] == b[|a|];
      }
    } else {
      if |p2| != |qb| {
        assert p2[|qb|] == '/';
        assert p1[|qb|] == qa[|qb|] == a[|b|];
      }
    }
  }

  /** A walk of a well-formed tree builds every path once. */
  lemma {:induction false} ListingDistinct(dir: string, entries: seq<Node>)
    requires WellFormed(entries)
    decreases entries
    ensures DistinctPaths(Listing(dir, entries))
  {
    if entries != [] {
      var k := |entries| - 1;
      var init := entries[..k];
      assert WellFormed(init) by {
        forall i | 0 <= i < |init| ensures init[i] == entries[i] { }
      }
      ListingDistinct(dir, init);
      var front := Listing(dir, init);
      var back := Listing(dir, [entries[k]]);
      ListingLast(dir, entries);
      assert [entries[k]][..0] == [];
      if entries[k].Dir? {
        ListingDistinct(Join(dir, entries[k].name), entries[k].children);
      }
      forall x, y | x in front && y in back ensures x.Path() != y.Path() {
        LastApart(dir, entries, x, y);
      }
      DistinctAppend(front, back);
    }
  }

  /** A file below an earlier entry and one below the last entry have different paths. */
  lemma LastApart(dir: string, entries: seq<Node>, x: FileEntry, y: FileEntry)
    requires WellFormed(entries) && entries != []
    requires x in Listing(dir, entries[..|entries| - 1]) && y in Listing(dir, [entries[|entries| - 1]])
    ensures x.Path() != y.Path()
  {
    var k := |entries| - 1;
    var init := entries[..k];
    ListingUnder(dir, init, x);
    var m :| 0 <= m < |init| && Under(x.Path(), dir, init[m].name);
    ListingOneUnder(dir, entries[k], y);
    assert init[m] == entries[m];
    UnderDistinct(x.Path(), y.Path(), dir, init[m].name, entries[k].name);
  }

  /** Two listings without repeated paths and without a path in common make one without repeats. */
  lemma DistinctAppend(front: seq<FileEntry>, back: seq<FileEntry>)
    requires DistinctPaths(front) && DistinctPaths(back)
    requires forall x, y :: x in front && y in back ==> x.Path() != y.Path()
    ensures DistinctPaths(front + back)
  {
    var all := front + back;
    forall i, j | 0 <= i < j < |all| ensures all[i].Path() != all[j].Path() {
      if j >= |front| && i < |front| {
        assert all[i] in front && all[j] in back;
      } else if i >= |front| {
        assert all[i] == back[i - |front|] && all[j] == back[j - |front|];
      } else {
        assert all[i] == front[i] && all[j] == front[j];
      }
    }
  }

  /** The set of paths of the listed files named `n`. */
  function NamedPathSet(files: seq<FileEntry>, n: string): set<string>
  {
    set e | e in files && e.name == n :: e.Path()
  }

  lemma NamedPathSetLast(files: seq<FileEntry>, n: string)
    requires files != []
    ensures var last := files[|files| - 1];
      NamedPathSet(files, n) ==
      NamedPathSet(files[..|files| - 1], n) + (if last.name == n then {last.Path()} else {})
  {
    assert files == files[..|files| - 1] + [files[|files| - 1]];
  }

  /** For files with distinct paths, a count by name is the size of a set of paths. */
  lemma {:induction false} CountIsCardinality(files: seq<FileEntry>, n: string)
    requires DistinctPaths(files)
    ensures CountNamed(files, n) == |NamedPathSet(files, n)|
  {
    if files != [] {
      var k := |files| - 1;
      var init := files[..k];
      var last := files[k];
      assert DistinctPaths(init) by {
        forall i | 0 <= i < k ensures init[i] == files[i] { }
      }
      CountIsCardinality(init, n);
      NamedPathSetLast(files, n);
      if last.name == n {
        LastPathNew(files, n);
      }
    }
  }

  /** Without repeated paths, the last file's path is not among the earlier ones. */
  lemma LastPathNew(files: seq<FileEntry>, n: string)
    requires DistinctPaths(files) && files != []
    ensures files[|files| - 1].Path() !in NamedPathSet(files[..|files| - 1], n)
  {
    var k := |files| - 1;
    forall i | 0 <= i < k ensures files[..k][i].Path() != files[k].Path() {
      assert files[..k][i] == files[i];
    }
  }

  /** The paths among `paths` whose last component is `n`. */
  function WithBasename(paths: set<string>, n: string): set<string>
  {
    set q | q in paths && Basename(q) == n
  }

  /** With valid names, the files named `n` are the paths whose last component is `n`. */
  lemma NamedByBasename(files: seq<FileEntry>, n: string)
    requires forall e :: e in files ==> ValidName(e.name)
    ensures NamedPathSet(files, n) == WithBasename(PathSet(files), n)
  {
    forall e | e in files {
      JoinSplit(e.dir, e.name);
    }
  }

  /** No string occurs twice. */
  ghost predicate NoDuplicates(s: seq<string>)
  {
    forall i, j :: 0 <= i < j < |s| ==> s[i] != s[j]
  }

  lemma {:induction false} SelectedDistinct(files: seq<FileEntry>, n: string)
    requires DistinctPaths(files)
    ensures NoDuplicates(PathsNamed(files, n))
  {
    if files != [] {
      var k := |files| - 1;
      var init := files[..k];
      assert DistinctPaths(init) by {
        forall i | 0 <= i < k ensures init[i] == files[i] { }
      }
      SelectedDistinct(init, n);
      var before := PathsNamed(init, n);
      var paths := PathsNamed(files, n);
      if files[k].name == n {
        forall q | q in before ensures q != files[k].Path() {
          PathsNamedExactly(init, n, q);
          var e :| e in init && e.name == n && e.Path() == q;
          var i :| 0 <= i < k && init[i] == e;
          assert files[i] == e;
        }
        assert paths == before + [files[k].Path()];
        forall i, j | 0 <= i < j < |paths| ensures paths[i] != paths[j] {
          if j == |before| {
            assert paths[i] == before[i] && before[i] in before;
          } else {
            assert paths[i] == before[i] && paths[j] == before[j];
          }
        }
      }
    }
  }
}
