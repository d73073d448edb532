/**
 * What the three scripts promise about each other: a migration run leaves
 * the folder so that running it again resumes with exactly the descriptors
 * it did not migrate, count.ts sees the migrated ones moved from the
 * pending count to the done count, and undo.ts puts the folder back as it
 * was before the run.
 */
module Rerun {
  import opened Strings
  import opened DirTree
  import opened Disk
  import opened Documents
  import opened Migration
  import opened Undo
  import opened Count
  import Walker

  /** The live files of a snapshot. */
  function Files(root: string, entries: seq<Node>): set<string>
  {
    PathSet(Listing(root, entries))
  }

  /** The run main.ts makes over the descriptors a walk of `entries` finds, from the files of `entries`. */
  function RunOver(doc: DocStep, n: nat, root: string, entries: seq<Node>): RunState
  {
    RunEffect(doc, n, Files(root, entries), Walker.MetadataPaths(root, entries))
  }

  /** Every migrated descriptor was walked, so it is a live `metadata.json` of the snapshot. */
  lemma MigratedWalked(doc: DocStep, n: nat, root: string, entries: seq<Node>, p: string)
    requires NamesPath(doc) && WellFormed(entries)
    requires p in Migrations(RunOver(doc, n, root, entries).reports)
    ensures p in Walker.MetadataPaths(root, entries)
    ensures p in Files(root, entries) && Basename(p) == MetadataName
  {
    var reports := RunOver(doc, n, root, entries).reports;
    ReportedPaths(doc, n, Files(root, entries), Walker.MetadataPaths(root, entries));
    var x :| x in reports && x.Migrated? && x.path == p;
    Walker.WalkerFinds(root, entries, p);
  }

  /** The files after a run over a real tree: the migrated descriptors carry the `.done` suffix, nothing else moved. */
  lemma RunOverAsSets(doc: DocStep, n: nat, root: string, entries: seq<Node>)
    requires NamesPath(doc) && WellFormed(entries)
    ensures var r := RunOver(doc, n, root, entries);
      r.files == (Files(root, entries) - Migrations(r.reports)) + (set p | p in Migrations(r.reports) :: p + DoneSuffix)
  {
    var paths := Walker.MetadataPaths(root, entries);
    forall p | p in paths ensures Basename(p) == MetadataName {
      Walker.WalkerFinds(root, entries, p);
    }
    RunAsSets(doc, n, Files(root, entries), paths);
  }

  /**
   * Running main.ts again over the folder a run left behind visits exactly
   * the descriptors the first run found and did not migrate: the skipped
   * ones, the one that stopped it, and those it never reached.
   */
  lemma RerunResumes(doc: DocStep, n: nat, root: string, entries: seq<Node>, later: seq<Node>, p: string)
    requires NamesPath(doc) && WellFormed(entries) && WellFormed(later)
    requires Files(root, later) == RunOver(doc, n, root, entries).files
    ensures p in Walker.MetadataPaths(root, later) <==>
            p in Walker.MetadataPaths(root, entries) && p !in Migrations(RunOver(doc, n, root, entries).reports)
  {
    var m := Migrations(RunOver(doc, n, root, entries).reports);
    RunOverAsSets(doc, n, root, entries);
    Walker.WalkerFinds(root, later, p);
    Walker.WalkerFinds(root, entries, p);
    if p in (set q | q in m :: q + DoneSuffix) {
      var q :| q in m && p == q + DoneSuffix;
      MigratedWalked(doc, n, root, entries, q);
      MarkedName(q);
    }
  }

  /** A suffix added to every path of a set keeps the paths apart. */
  lemma {:induction false} SuffixedCard(ps: set<string>, s: string)
    ensures |set p | p in ps :: p + s| == |ps|
    decreases |ps|
  {
    if ps != {} {
      var x :| x in ps;
      var rest := ps - {x};
      SuffixedCard(rest, s);
      forall p | p in rest ensures p + s != x + s {
        SuffixCancels(p, x, s);
      }
      assert (set p | p in ps :: p + s) == (set p | p in rest :: p + s) + {x + s};
    }
  }

  lemma SuffixCancels(p: string, x: string, s: string)
    ensures p + s == x + s ==> p == x
  {
    if p + s == x + s {
      assert p == (p + s)[..|p|];
      assert x == (x + s)[..|x|];
    }
  }

  /** Taking pending descriptors `m` out and adding done descriptors `t` shifts the two name classes. */
  lemma NamedAfterRun(files0: set<string>, m: set<string>, t: set<string>, files1: set<string>)
    requires files1 == (files0 - m) + t
    requires forall q :: q in m ==> q in files0 && Basename(q) == MetadataName
    requires forall q :: q in t ==> Basename(q) == DoneName
    ensures WithBasename(files1, MetadataName) == WithBasename(files0, MetadataName) - m
    ensures WithBasename(files1, DoneName) == WithBasename(files0, DoneName) + t
    ensures |WithBasename(files1, MetadataName)| == |WithBasename(files0, MetadataName)| - |m|
  {
    var a := WithBasename(files0, MetadataName);
    assert m <= a;
    assert a == (a - m) + m;
  }

  /**
   * count.ts after a run over a freshly exported folder (no
   * `metadata.json.done` yet): every migrated descriptor has moved from the
   * pending count to the done count, and the total is unchanged.
   */
  lemma RunShiftsCounts(doc: DocStep, n: nat, root: string, entries: seq<Node>, later: seq<Node>)
    requires NamesPath(doc) && WellFormed(entries) && WellFormed(later)
    requires DoneFiles(Files(root, entries)) == {}
    requires Files(root, later) == RunOver(doc, n, root, entries).files
    ensures var migrated := |Migrations(RunOver(doc, n, root, entries).reports)|;
      PendingCount(root, later) == PendingCount(root, entries) - migrated &&
      DoneCount(root, later) == migrated &&
      Total(PendingCount(root, later), DoneCount(root, later)) == PendingCount(root, entries) + DoneCount(root, entries)
  {
    var files0, files1 := Files(root, entries), Files(root, later);
    var m := Migrations(RunOver(doc, n, root, entries).reports);
    var t := set p | p in m :: p + DoneSuffix;
    RunOverAsSets(doc, n, root, entries);
    MigratedMarked(doc, n, root, entries);
    CountOfPaths(root, entries, MetadataName);
    CountOfPaths(root, later, MetadataName);
    CountOfPaths(root, entries, DoneName);
    CountOfPaths(root, later, DoneName);
    NamedAfterRun(files0, m, t, files1);
    SuffixedCard(m, DoneSuffix);
  }

  /** The migrated descriptors were live `metadata.json` files, and their new names end in `metadata.json.done`. */
  lemma MigratedMarked(doc: DocStep, n: nat, root: string, entries: seq<Node>)
    requires NamesPath(doc) && WellFormed(entries)
    ensures var m := Migrations(RunOver(doc, n, root, entries).reports);
      (forall q :: q in m ==> q in Files(root, entries) && Basename(q) == MetadataName &&
                              q in Walker.MetadataPaths(root, entries)) &&
      (forall q :: q in (set p | p in m :: p + DoneSuffix) ==> Basename(q) == DoneName && Stem(q) in m)
  {
    var m := Migrations(RunOver(doc, n, root, entries).reports);
    forall q | q in m ensures q in Files(root, entries) && Basename(q) == MetadataName && q in Walker.MetadataPaths(root, entries) {
      MigratedWalked(doc, n, root, entries, q);
    }
    forall q | q in (set p | p in m :: p + DoneSuffix) ensures Basename(q) == DoneName && Stem(q) in m {
      var p :| p in m && q == p + DoneSuffix;
      MarkedName(p);
      StemUndoesMark(p);
    }
  }

  /**
   * undo.ts after a run over a freshly exported folder puts every file back
   * where it was, provided no walked path holds ".done" before its last
   * component's suffix and the operating system renames every migrated descriptor.
   */
  lemma MigrateThenUndo(doc: DocStep, n: nat, refused: set<string>, root: string, entries: seq<Node>, later: seq<Node>)
    requires NamesPath(doc) && WellFormed(entries) && WellFormed(later)
    requires DoneFiles(Files(root, entries)) == {}
    requires forall p :: p in Walker.MetadataPaths(root, entries) ==> !Contains(p, DoneSuffix) && p + DoneSuffix !in refused
    requires Files(root, later) == RunOver(doc, n, root, entries).files
    ensures Undone(Files(root, later), refused, root, later).files == Files(root, entries)
  {
    var files0, files1 := Files(root, entries), Files(root, later);
    var m := Migrations(RunOver(doc, n, root, entries).reports);
    var t := set p | p in m :: p + DoneSuffix;
    RunOverAsSets(doc, n, root, entries);
    MigratedMarked(doc, n, root, entries);
    forall q | q in DoneFiles(files1) ensures q !in refused && !Contains(Stem(q), DoneSuffix) {
      RestorableMark(files0, m, t, files1, q);
    }
    UndoAsSets(files1, refused, root, later);
    UndoneAfterRun(files0, m, t, files1);
  }

  /**
   * The corrected undo (cutting the suffix) restores the folder after a
   * run whatever its directory names hold; only the renames must not be refused.
   */
  lemma MigrateThenCorrectedUndo(doc: DocStep, n: nat, refused: set<string>, root: string, entries: seq<Node>, later: seq<Node>)
    requires NamesPath(doc) && WellFormed(entries) && WellFormed(later)
    requires DoneFiles(Files(root, entries)) == {}
    requires forall p :: p in Walker.MetadataPaths(root, entries) ==> p + DoneSuffix !in refused
    requires Files(root, later) == RunOver(doc, n, root, entries).files
    ensures AttemptAll(Files(root, later), refused, CorrectedMoves(root, later)).files == Files(root, entries)
  {
    var files0, files1 := Files(root, entries), Files(root, later);
    var m := Migrations(RunOver(doc, n, root, entries).reports);
    var t := set p | p in m :: p + DoneSuffix;
    RunOverAsSets(doc, n, root, entries);
    MigratedMarked(doc, n, root, entries);
    forall q | q in DoneFiles(files1) ensures q !in refused {
      RestorableMark(files0, m, t, files1, q);
    }
    CorrectedUndoAsSets(files1, refused, root, later);
    UndoneAfterRun(files0, m, t, files1);
  }

  /** A done descriptor after the run is the mark of a migrated one. */
  lemma RestorableMark(files0: set<string>, m: set<string>, t: set<string>, files1: set<string>, q: string)
    requires files1 == (files0 - m) + t && DoneFiles(files0) == {}
    requires t == set p | p in m :: p + DoneSuffix
    requires q in DoneFiles(files1)
    ensures exists p :: p in m && q == p + DoneSuffix && Stem(q) == p
  {
    assert q !in files0 - m by {
      assert q !in DoneFiles(files0);
    }
    var p :| p in m && q == p + DoneSuffix;
    StemUndoesMark(p);
  }

  /** Undoing the marks of a run over a folder with no done descriptor gives the folder back. */
  lemma UndoneAfterRun(files0: set<string>, m: set<string>, t: set<string>, files1: set<string>)
    requires files1 == (files0 - m) + t && DoneFiles(files0) == {}
    requires t == set p | p in m :: p + DoneSuffix
    requires forall q :: q in m ==> q in files0 && Basename(q) == MetadataName
    requires forall q :: q in t ==> Basename(q) == DoneName && Stem(q) in m
    ensures (files1 - DoneFiles(files1)) + (set q | q in DoneFiles(files1) :: Stem(q)) == files0
  {
    DoneAfterRun(files0, m, t, files1);
    StemsOfMarks(m, t);
    forall q | q in files0 ensures q !in t {
      assert q !in DoneFiles(files0);
    }
    assert files1 - t == files0 - m;
  }

  lemma DoneAfterRun(files0: set<string>, m: set<string>, t: set<string>, files1: set<string>)
    requires files1 == (files0 - m) + t && DoneFiles(files0) == {}
    requires forall q :: q in t ==> Basename(q) == DoneName
    ensures DoneFiles(files1) == t
  {
    forall q | q in files0 ensures Basename(q) != DoneName {
      assert q !in DoneFiles(files0);
    }
  }

  /** Cutting the suffix off the marks gives the migrated paths back. */
  lemma StemsOfMarks(m: set<string>, t: set<string>)
    requires t == set p | p in m :: p + DoneSuffix
    ensures (set q | q in t :: Stem(q)) == m
  {
    forall p | p in m ensures p in (set q | q in t :: Stem(q)) {
      StemUndoesMark(p);
      assert p + DoneSuffix in t;
    }
    forall q | q in t ensures Stem(q) in m {
      var p :| p in m && q == p + DoneSuffix;
      StemUndoesMark(p);
    }
  }
}
