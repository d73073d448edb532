/**
 * undo.ts: walks the input folder and renames every `metadata.json.done`
 * back by removing the first ".done" from its path, reporting each rename
 * and each failure and carrying on after a failure.
 */
module Undo {
  import opened Strings
  import opened DirTree
  import opened Disk

  /** One line of the script's console output (undo.ts:14, undo.ts:16). */
  datatype Outcome = Renamed(oldPath: string, newPath: string) | RenameFailed(oldPath: string)

  /** `oldPath.replace(".done", "")` (undo.ts:11): the first ".done" anywhere in the path goes. */
  function RestoredPath(oldPath: string): string
  {
    ReplaceFirst(oldPath, DoneSuffix, "")
  }

  /** The rename requested for each migrated descriptor, in walk order. */
  function RestoreMoves(paths: seq<string>): (r: seq<Move>)
    ensures |r| == |paths|
    ensures forall i :: 0 <= i < |r| ==> r[i] == Move(paths[i], RestoredPath(paths[i]))
  {
    if paths == [] then []
    else RestoreMoves(paths[..|paths| - 1]) + [Move(paths[|paths| - 1], RestoredPath(paths[|paths| - 1]))]
  }

  /** The renames undo.ts requests for the tree `entries` under `dir`. */
  function UndoMoves(dir: string, entries: seq<Node>): seq<Move>
  {
    RestoreMoves(PathsNamed(Listing(dir, entries), DoneName))
  }

  /** The renames of undo.ts over the tree `entries` under `dir`, attempted on the live `files`. */
  function Undone(files: set<string>, refused: set<string>, dir: string, entries: seq<Node>): Renames
  {
    AttemptAll(files, refused, UndoMoves(dir, entries))
  }

  /** The lines undo.ts prints for that walk. */
  function UndoLog(files: set<string>, refused: set<string>, dir: string, entries: seq<Node>): seq<Outcome>
  {
    Outcomes(UndoMoves(dir, entries), Undone(files, refused, dir, entries).succeeded)
  }

  /** What the script prints for the attempts `moves` with outcomes `ok`, in order. */
  function Outcomes(moves: seq<Move>, ok: seq<bool>): (r: seq<Outcome>)
    requires |ok| == |moves|
    ensures |r| == |moves|
  {
    if moves == [] then []
    else
      var k := |moves| - 1;
      Outcomes(moves[..k], ok[..k]) + [if ok[k] then Renamed(moves[k].from, moves[k].to) else RenameFailed(moves[k].from)]
  }

  /** Line `i` names the `i`-th attempted path; it is a success line exactly when that rename succeeded, and then names its target. */
  lemma {:induction false} OutcomesAt(moves: seq<Move>, ok: seq<bool>, i: nat)
    requires |ok| == |moves| && i < |moves|
    ensures Outcomes(moves, ok)[i].oldPath == moves[i].from
    ensures Outcomes(moves, ok)[i].Renamed? <==> ok[i]
    ensures ok[i] ==> Outcomes(moves, ok)[i].newPath == moves[i].to
  {
    var k := |moves| - 1;
    if i < k {
      OutcomesAt(moves[..k], ok[..k], i);
    }
  }

  lemma {:induction false} OutcomesAppend(a: seq<Move>, oka: seq<bool>, b: seq<Move>, okb: seq<bool>)
    requires |oka| == |a| && |okb| == |b|
    decreases b
    ensures Outcomes(a + b, oka + okb) == Outcomes(a, oka) + Outcomes(b, okb)
  {
    if b == [] {
      assert a + b == a && oka + okb == oka;
    } else {
      var k := |b| - 1;
      assert (a + b)[..|a + b| - 1] == a + b[..k];
      assert (oka + okb)[..|oka + okb| - 1] == oka + okb[..k];
      assert (a + b)[|a + b| - 1] == b[k];
      assert (oka + okb)[|oka + okb| - 1] == okb[k];
      OutcomesAppend(a, oka, b[..k], okb[..k]);
    }
  }

  lemma {:induction false} RestoreMovesAppend(a: seq<string>, b: seq<string>)
    ensures RestoreMoves(a + b) == RestoreMoves(a) + RestoreMoves(b)
  {
    var l, r := RestoreMoves(a + b), RestoreMoves(a) + RestoreMoves(b);
    assert |l| == |r|;
    forall i | 0 <= i < |l| ensures l[i] == r[i] {
      if i < |a| {
        assert (a + b)[i] == a[i];
      } else {
        assert (a + b)[i] == b[i - |a|];
      }
    }
  }

  /** The closure state of undo.ts:3-20: the live file system it renames in and the lines it prints. */
  class Restorer {
    const fs: FileSystem
    var log: seq<Outcome>

    constructor (fs: FileSystem)
      ensures this.fs == fs && log == []
    {
      this.fs := fs;
      log := [];
    }

    /**
     * `walkDir(dir)` over the listing `entries` of `dir` (undo.ts:4-20):
     * each migrated descriptor is renamed in walk order, a failed rename is
     * reported and the walk goes on.
     */
    method WalkDir(dir: string, entries: seq<Node>)
      modifies this, fs
      decreases entries
      ensures fs.files == Undone(old(fs.files), fs.refused, dir, entries).files
      ensures log == old(log) + UndoLog(old(fs.files), fs.refused, dir, entries)
    {
      ghost var files0, log0, refused := fs.files, log, fs.refused;
      for i := 0 to |entries|
        invariant fs.files == Undone(files0, refused, dir, entries[..i]).files
        invariant log == log0 + UndoLog(files0, refused, dir, entries[..i])
      {
        ghost var mid, logMid := fs.files, log;
        Visit(dir, entries[i]);
        WalkStep(files0, refused, dir, entries, i, log0, logMid, log);
      }
      assert entries[..|entries|] == entries;
    }

    /** One iteration of the loop of undo.ts:5-19. */
    method Visit(dir: string, entry: Node)
      modifies this, fs
      decreases entry
      ensures fs.files == Undone(old(fs.files), fs.refused, dir, [entry]).files
      ensures log == old(log) + UndoLog(old(fs.files), fs.refused, dir, [entry])
    {
      var fullPath := Join(dir, entry.name);
      NamedSingle(dir, entry, DoneName);
      match entry {
        case Dir(_, cs) =>
          WalkDir(fullPath, cs);
        case File(n) =>
          if n == DoneName {
            var oldPath := fullPath;
            var newPath := ReplaceFirst(oldPath, DoneSuffix, "");
            ghost var m := Move(oldPath, newPath);
            assert UndoMoves(dir, [entry]) == [m] by {
              assert RestoreMoves([oldPath]) == RestoreMoves([]) + [m];
            }
            assert [m][..0] == [];
            ghost var before := fs.files;
            var ok := fs.Rename(oldPath, newPath);
            assert [ok][..0] == [];
            assert AttemptAll(before, fs.refused, [m][..0]) == Renames(before, []);
            assert AttemptAll(before, fs.refused, [m]).succeeded == [ok];
            assert Undone(before, fs.refused, dir, [entry]).succeeded == [ok];
            if ok {
              log := log + [Renamed(oldPath, newPath)];
            } else {
              assert UndoLog(before, fs.refused, dir, [entry]) == [RenameFailed(oldPath)];
              log := log + [RenameFailed(oldPath)];
            }
          }
        case Symlink(_) =>
      }
    }
  }

  /** The loop step of `Restorer.WalkDir`: the attempts for `entries[..i + 1]` are those for `entries[..i]` then those for `entries[i]`, and so are the printed lines. */
  lemma WalkStep(files: set<string>, refused: set<string>, dir: string, entries: seq<Node>, i: nat,
                  log0: seq<Outcome>, logMid: seq<Outcome>, log: seq<Outcome>)
    requires i < |entries|
    requires logMid == log0 + UndoLog(files, refused, dir, entries[..i])
    requires log == logMid + UndoLog(Undone(files, refused, dir, entries[..i]).files, refused, dir, [entries[i]])
    ensures var pre := Undone(files, refused, dir, entries[..i]).files;
      Undone(files, refused, dir, entries[..i + 1]).files == Undone(pre, refused, dir, [entries[i]]).files
    ensures log == log0 + UndoLog(files, refused, dir, entries[..i + 1])
  {
    Split(files, refused, dir, entries, i);
    var pre := Undone(files, refused, dir, entries[..i]).files;
    var done, next := UndoLog(files, refused, dir, entries[..i]), UndoLog(pre, refused, dir, [entries[i]]);
    assert (log0 + done) + next == log0 + (done + next);
  }

  lemma Split(files: set<string>, refused: set<string>, dir: string, entries: seq<Node>, i: nat)
    requires i < |entries|
    ensures var pre := Undone(files, refused, dir, entries[..i]).files;
      Undone(files, refused, dir, entries[..i + 1]).files == Undone(pre, refused, dir, [entries[i]]).files &&
      UndoLog(files, refused, dir, entries[..i + 1]) ==
      UndoLog(files, refused, dir, entries[..i]) + UndoLog(pre, refused, dir, [entries[i]])
  {
    NamedStep(dir, entries, i, DoneName);
    var a, b := UndoMoves(dir, entries[..i]), UndoMoves(dir, [entries[i]]);
    RestoreMovesAppend(PathsNamed(Listing(dir, entries[..i]), DoneName), PathsNamed(Listing(dir, [entries[i]]), DoneName));
    AttemptAllAppend(files, refused, a, b);
    var pre := AttemptAll(files, refused, a);
    OutcomesAppend(a, pre.succeeded, b, AttemptAll(pre.files, refused, b).succeeded);
  }

  /** `renameMetadataFiles(inputFolder)` (undo.ts:3-23): the whole walk over the input folder. */
  method RenameMetadataFiles(fs: FileSystem, inputFolder: string, entries: seq<Node>) returns (log: seq<Outcome>)
    modifies fs
    ensures fs.files == Undone(old(fs.files), fs.refused, inputFolder, entries).files
    ensures log == UndoLog(old(fs.files), fs.refused, inputFolder, entries)
  {
    var restorer := new Restorer(fs);
    restorer.WalkDir(inputFolder, entries);
    log := restorer.log;
  }

  /** A migrated descriptor's path is a pending one's with ".done" appended. */
  lemma DoneSplit(q: string)
    requires Basename(q) == DoneName
    ensures |DoneSuffix| <= |q|
    ensures q == q[..|q| - |DoneSuffix|] + DoneSuffix
    ensures Basename(q[..|q| - |DoneSuffix|]) == MetadataName
  {
    DoneNameIsSuffixed();
    SuffixSplit(q, MetadataName, DoneSuffix);
  }

  /** A path whose last component is `name + suffix`, with no '/' in `suffix`, is a path ending in `name` with `suffix` appended. */
  lemma SuffixSplit(q: string, name: string, suffix: string)
    requires Basename(q) == name + suffix && '/' !in suffix
    ensures |suffix| <= |q|
    ensures q == q[..|q| - |suffix|] + suffix
    ensures Basename(q[..|q| - |suffix|]) == name
  {
    BasenameSuffix(q);
    var d := q[..|q| - |suffix|];
    assert q[|q| - |suffix|..] == (name + suffix)[|name|..];
    assert q == d + suffix;
    BasenameAppend(d, suffix);
    assert Basename(d) == (Basename(d) + suffix)[..|name|];
  }

  /** Where the path before the suffix holds no ".done", `replace` strips exactly the suffix. */
  lemma RestoredPathStrips(q: string)
    requires Basename(q) == DoneName
    requires !Contains(q[..|q| - |DoneSuffix|], DoneSuffix)
    ensures RestoredPath(q) == q[..|q| - |DoneSuffix|]
    ensures Basename(RestoredPath(q)) == MetadataName
  {
    DoneSplit(q);
    assert DoneSuffix[0] !in DoneSuffix[1..] by {
      assert DoneSuffix[1..] == "done";
    }
    ReplaceFirstAfter(q[..|q| - |DoneSuffix|], DoneSuffix, "");
    assert q[..|q| - |DoneSuffix|] + DoneSuffix + "" == q;
  }

  /** The files undo.ts asks to rename are exactly the listed files named `metadata.json.done`. */
  lemma {:induction false} UndoSources(root: string, entries: seq<Node>, p: string)
    requires WellFormed(entries)
    ensures p in Sources(UndoMoves(root, entries)) <==>
            p in PathSet(Listing(root, entries)) && Basename(p) == DoneName
  {
    var files := Listing(root, entries);
    var ps := PathsNamed(files, DoneName);
    var moves := UndoMoves(root, entries);
    if p in Sources(moves) {
      var m :| m in moves && m.from == p;
      var i :| 0 <= i < |moves| && moves[i] == m;
      assert ps[i] == p;
    }
    if p in ps {
      var i :| 0 <= i < |ps| && ps[i] == p;
      assert moves[i] in moves;
    }
    PathsNamedExactly(files, DoneName, p);
    forall e | e in files ensures ValidName(e.name) {
      ListedNamesValid(root, entries, e);
    }
    NamedByBasename(files, DoneName);
    if p in NamedPathSet(files, DoneName) {
      var e :| e in files && e.name == DoneName && e.Path() == p;
    }
  }
  /** Every rename undo.ts requests goes from its path to `RestoredPath` of it. */
  lemma UndoTargets(root: string, entries: seq<Node>, m: Move)
    requires m in UndoMoves(root, entries)
    ensures m.to == RestoredPath(m.from)
  {
  }

  /** A file not named `metadata.json.done` is left where it is, whatever fails. */
  lemma UndoKeepsOthers(files: set<string>, refused: set<string>, root: string, entries: seq<Node>, q: string)
    requires WellFormed(entries)
    requires q in files && Basename(q) != DoneName
    ensures q in Undone(files, refused, root, entries).files
  {
    UndoSources(root, entries, q);
    AttemptAllKeeps(files, refused, UndoMoves(root, entries), q);
  }

  /** A path with its ".done" suffix cut off. */
  function Stem(q: string): string
  {
    if |DoneSuffix| <= |q| then q[..|q| - |DoneSuffix|] else q
  }

  /** The migrated descriptors among `files`. */
  function DoneFiles(files: set<string>): set<string>
  {
    WithBasename(files, DoneName)
  }

  /** A walk may restore the migrated descriptors of `files` when none is refused and none has ".done" before its suffix. */
  ghost predicate Restorable(files: set<string>, refused: set<string>)
  {
    forall q :: q in DoneFiles(files) ==> q !in refused && !Contains(Stem(q), DoneSuffix)
  }

  lemma UndoSourcesSet(files: set<string>, root: string, entries: seq<Node>)
    requires WellFormed(entries) && files == PathSet(Listing(root, entries))
    ensures Sources(UndoMoves(root, entries)) == DoneFiles(files)
  {
    forall p ensures p in Sources(UndoMoves(root, entries)) <==> p in DoneFiles(files) {
      UndoSources(root, entries, p);
    }
  }

  lemma UndoTargetsSet(files: set<string>, refused: set<string>, root: string, entries: seq<Node>)
    requires WellFormed(entries) && files == PathSet(Listing(root, entries))
    requires Restorable(files, refused)
    ensures Targets(UndoMoves(root, entries)) == set q | q in DoneFiles(files) :: Stem(q)
    ensures forall m :: m in UndoMoves(root, entries) ==> m.to == Stem(m.from) && Basename(m.to) == MetadataName
  {
    var moves := UndoMoves(root, entries);
    UndoSourcesSet(files, root, entries);
    forall m | m in moves ensures m.to == Stem(m.from) && Basename(m.to) == MetadataName {
      assert m.from in Sources(moves);
      UndoTargets(root, entries, m);
      RestorableStem(files, refused, m.from);
    }
    TargetsOfStems(moves, DoneFiles(files));
  }

  /** A restorable migrated descriptor is renamed to its stem, a pending descriptor's path. */
  lemma RestorableStem(files: set<string>, refused: set<string>, q: string)
    requires Restorable(files, refused) && q in DoneFiles(files)
    ensures RestoredPath(q) == Stem(q) && Basename(Stem(q)) == MetadataName
  {
    DoneSplit(q);
    RestoredPathStrips(q);
  }

  /** Moves that each go to the stem of their source target exactly the stems of their sources. */
  lemma TargetsOfStems(moves: seq<Move>, sources: set<string>)
    requires Sources(moves) == sources
    requires forall m :: m in moves ==> m.to == Stem(m.from)
    ensures Targets(moves) == set q | q in sources :: Stem(q)
  {
    forall q | q in sources ensures Stem(q) in Targets(moves) {
      assert q in Sources(moves);
      var m :| m in moves && m.from == q;
    }
  }

  /**
   * A walk over a listing of the live files, with nothing refused and no
   * ".done" before any suffix, renames every migrated descriptor back to its
   * pending name and touches nothing else.
   */
  lemma UndoAsSets(files: set<string>, refused: set<string>, root: string, entries: seq<Node>)
    requires WellFormed(entries) && files == PathSet(Listing(root, entries))
    requires Restorable(files, refused)
    ensures Undone(files, refused, root, entries).files ==
            (files - DoneFiles(files)) + (set q | q in DoneFiles(files) :: Stem(q))
  {
    var moves := UndoMoves(root, entries);
    UndoSourcesSet(files, root, entries);
    UndoTargetsSet(files, refused, root, entries);
    forall m, m' | m in moves && m' in moves ensures m.from != m'.to {
      assert m.from in Sources(moves);
    }
    AttemptAllAsSets(files, refused, moves);
  }

  /** After such a walk no migrated descriptor is left. */
  lemma UndoLeavesNoDone(files: set<string>, refused: set<string>, root: string, entries: seq<Node>)
    requires WellFormed(entries) && files == PathSet(Listing(root, entries))
    requires Restorable(files, refused)
    ensures DoneFiles(Undone(files, refused, root, entries).files) == {}
  {
    UndoAsSets(files, refused, root, entries);
    StemsNotDone(files, refused, (files - DoneFiles(files)) + (set q | q in DoneFiles(files) :: Stem(q)));
  }

  /** The live files with every restorable migrated descriptor renamed to its stem hold none of them. */
  lemma StemsNotDone(files: set<string>, refused: set<string>, after: set<string>)
    requires Restorable(files, refused)
    requires after == (files - DoneFiles(files)) + (set q | q in DoneFiles(files) :: Stem(q))
    ensures DoneFiles(after) == {}
  {
    assert |MetadataName| != |DoneName|;
    forall q | q in after ensures Basename(q) != DoneName {
      if q !in files - DoneFiles(files) {
        var q0 :| q0 in DoneFiles(files) && q == Stem(q0);
        RestorableStem(files, refused, q0);
      }
    }
  }

  /** So a second walk, over any listing of what the first one left, requests no rename. */
  lemma UndoTwice(files: set<string>, refused: set<string>, root: string, entries: seq<Node>, later: seq<Node>)
    requires WellFormed(entries) && files == PathSet(Listing(root, entries))
    requires Restorable(files, refused)
    requires WellFormed(later) && PathSet(Listing(root, later)) == Undone(files, refused, root, entries).files
    ensures UndoMoves(root, later) == []
  {
    UndoLeavesNoDone(files, refused, root, entries);
    UndoSourcesSet(Undone(files, refused, root, entries).files, root, later);
    var moves := UndoMoves(root, later);
    assert forall m :: m in moves ==> m.from in Sources(moves);
  }

  /** Under the same conditions every rename succeeds and is printed as such, with the pending name as target. */
  lemma UndoReportsAllRenamed(files: set<string>, refused: set<string>, root: string, entries: seq<Node>, i: nat)
    requires WellFormed(entries) && files == PathSet(Listing(root, entries))
    requires Restorable(files, refused)
    requires i < |UndoMoves(root, entries)|
    ensures UndoLog(files, refused, root, entries)[i].Renamed?
    ensures UndoLog(files, refused, root, entries)[i].newPath == Stem(UndoLog(files, refused, root, entries)[i].oldPath)
  {
    var moves := UndoMoves(root, entries);
    var ps := PathsNamed(Listing(root, entries), DoneName);
    UndoSourcesSet(files, root, entries);
    UndoTargetsSet(files, refused, root, entries);
    forall m, m' | m in moves && m' in moves ensures m.from != m'.to {
      assert m.from in Sources(moves);
    }
    ListingDistinct(root, entries);
    SelectedDistinct(Listing(root, entries), DoneName);
    assert forall j, k :: 0 <= j < k < |moves| ==> moves[j].from != moves[k].from by {
      forall j, k | 0 <= j < k < |moves| ensures moves[j].from != moves[k].from {
        assert moves[j].from == ps[j] && moves[k].from == ps[k];
      }
    }
    AttemptAllSucceeds(files, refused, moves, i);
    OutcomesAt(moves, AttemptAll(files, refused, moves).succeeded, i);
    assert moves[i] in moves;
  }

  /**
   * The as-written rename target goes wrong as soon as a directory name
   * holds ".done": the first ".done" in the whole path is removed, not the
   * suffix, so the descriptor is sent to another directory.
   */
  lemma RestoredPathMisplaced(d: string, r: string)
    requires !Contains(d, DoneSuffix)
    requires r != [] && r[0] == '/'
    ensures RestoredPath(d + DoneSuffix + r) == d + r
    ensures RestoredPath(d + DoneSuffix + r) != Stem(d + DoneSuffix + r)
  {
    assert DoneSuffix[1..] == "done";
    ReplaceFirstAfter(d, DoneSuffix, r);
    var q := d + DoneSuffix + r;
    assert Stem(q)[|d|] == '.';
    assert (d + r)[|d|] == '/';
  }

  /**
   * For instance, for any directory `dir` without a '.', the descriptor
   * migrated inside "`dir`.done" is sent to `dir` (for `dir` = "a":
   * "a.done/metadata.json.done" becomes "a/metadata.json.done").
   */
  lemma RestoredPathMisplacedExample(dir: string)
    requires '.' !in dir
    ensures RestoredPath(Join(dir + DoneSuffix, DoneName)) == Join(dir, DoneName)
  {
    assert DoneSuffix[0] == '.';
    LacksFirstChar(dir, DoneSuffix);
    RestoredPathMisplaced(dir, "/" + DoneName);
    assert Join(dir + DoneSuffix, DoneName) == dir + DoneSuffix + ("/" + DoneName);
  }

  /** The evidently intended target, `Stem`, undoes the main script's rename for every path. */
  lemma StemUndoesMark(p: string)
    ensures Stem(p + DoneSuffix) == p
  {
  }

  /** The renames of a corrected undo.ts that cuts the ".done" suffix instead of the first ".done". */
  function CorrectedMoves(dir: string, entries: seq<Node>): (r: seq<Move>)
    ensures var ps := PathsNamed(Listing(dir, entries), DoneName);
      |r| == |ps| && forall i :: 0 <= i < |r| ==> r[i] == Move(ps[i], Stem(ps[i]))
  {
    var ps := PathsNamed(Listing(dir, entries), DoneName);
    seq(|ps|, i requires 0 <= i < |ps| => Move(ps[i], Stem(ps[i])))
  }

  /** The corrected walk renames the same files as the as-written one. */
  lemma CorrectedSources(root: string, entries: seq<Node>)
    ensures Sources(CorrectedMoves(root, entries)) == Sources(UndoMoves(root, entries))
  {
    var a, b := CorrectedMoves(root, entries), UndoMoves(root, entries);
    forall p | p in Sources(a) ensures p in Sources(b) {
      var m :| m in a && m.from == p;
      var i :| 0 <= i < |a| && a[i] == m;
      assert b[i] in b;
    }
    forall p | p in Sources(b) ensures p in Sources(a) {
      var m :| m in b && m.from == p;
      var i :| 0 <= i < |b| && b[i] == m;
      assert a[i] in a;
    }
  }

  /**
   * With nothing refused, the corrected walk renames every migrated
   * descriptor to its pending name and touches nothing else, whatever the
   * directory names hold.
   */
  lemma CorrectedUndoAsSets(files: set<string>, refused: set<string>, root: string, entries: seq<Node>)
    requires WellFormed(entries) && files == PathSet(Listing(root, entries))
    requires DoneFiles(files) !! refused
    ensures AttemptAll(files, refused, CorrectedMoves(root, entries)).files ==
            (files - DoneFiles(files)) + (set q | q in DoneFiles(files) :: Stem(q))
  {
    var moves := CorrectedMoves(root, entries);
    CorrectedSources(root, entries);
    UndoSourcesSet(files, root, entries);
    forall m | m in moves ensures m.to == Stem(m.from) && Basename(m.to) == MetadataName {
      assert m.from in Sources(moves);
      var i :| 0 <= i < |moves| && moves[i] == m;
      DoneSplit(m.from);
    }
    forall q | q in DoneFiles(files) ensures Stem(q) in Targets(moves) {
      assert q in Sources(moves);
      var m :| m in moves && m.from == q;
      var i :| 0 <= i < |moves| && moves[i] == m;
    }
    forall m, m' | m in moves && m' in moves ensures m.from != m'.to {
      assert m.from in Sources(moves);
    }
    AttemptAllAsSets(files, refused, moves);
  }
}
