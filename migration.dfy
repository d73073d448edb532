/**
 * The migration run of main.ts:180-247: walk the input folder for pending
 * descriptors, then migrate them one by one, in walk order, stopping the
 * whole run at the first failure. A migrated descriptor is renamed to
 * `metadata.json.done`, so that a later run skips it.
 */
module Migration {
  import opened Strings
  import opened DirTree
  import opened Docspell
  import opened Paperless
  import opened Disk
  import opened Settings
  import opened Documents
  import Walker

  /** What a run has done so far: the files on disk, the requests sent, one report per descriptor visited. */
  datatype RunState = RunState(files: set<string>, calls: seq<Call>, reports: seq<Report>)

  /** The last report stopped the run (an exception in main.ts:189-234 ends the script). */
  predicate Halted(reports: seq<Report>)
  {
    |reports| > 0 && reports[|reports| - 1].Stopped?
  }

  /**
   * What one iteration of the loop does to a descriptor, given the number
   * of requests sent before it and the files on disk at that point.
   */
  type DocStep = (nat, set<string>, string) -> DocOutcome

  /** The iteration of main.ts:189-246 for one server, one set of descriptor contents and one configuration. */
  function DocStepOf(server: Server, descriptors: map<string, Metadata>, cfg: Config,
                     docTypes: seq<Entity>, tags: seq<Entity>): DocStep
  {
    (k: nat, files: set<string>, p: string) => DocEffect(server, k, files, descriptors, cfg, docTypes, tags, p)
  }

  /** Every report of `doc` names the descriptor it was made for. */
  ghost predicate NamesPath(doc: DocStep)
  {
    forall k, files, p :: doc(k, files, p).report.path == p
  }

  lemma DocStepNamesPath(server: Server, descriptors: map<string, Metadata>, cfg: Config,
                         docTypes: seq<Entity>, tags: seq<Entity>)
    ensures NamesPath(DocStepOf(server, descriptors, cfg, docTypes, tags))
  {
    forall k, files, p ensures DocStepOf(server, descriptors, cfg, docTypes, tags)(k, files, p).report.path == p {
      DocSkipped(server, k, files, descriptors, cfg, docTypes, tags, p);
    }
  }

  /**
   * The run of `doc` over `paths` from the files `files0`: each descriptor
   * in turn, with the requests numbered on from `n`, until one stops the run;
   * a migrated descriptor is renamed before the next one is visited.
   */
  function RunEffect(doc: DocStep, n: nat, files0: set<string>, paths: seq<string>): (r: RunState)
    ensures |r.reports| <= |paths|
  {
    if paths == [] then RunState(files0, [], [])
    else
      var pre := RunEffect(doc, n, files0, paths[..|paths| - 1]);
      if Halted(pre.reports) then pre
      else
        var p := paths[|paths| - 1];
        var d := doc(n + |pre.calls|, pre.files, p);
        RunState(if d.report.Migrated? then Moved(pre.files, Mark(p)) else pre.files,
                 pre.calls + d.calls, pre.reports + [d.report])
  }

  /** The renames the migrated reports requested, in order. */
  function Marks(reports: seq<Report>): seq<Move>
  {
    if reports == [] then []
    else
      var last := reports[|reports| - 1];
      Marks(reports[..|reports| - 1]) + (if last.Migrated? then [Mark(last.path)] else [])
  }

  /** The descriptors reported migrated. */
  function Migrations(reports: seq<Report>): set<string>
  {
    set r | r in reports && r.Migrated? :: r.path
  }

  lemma RunStep(doc: DocStep, n: nat, files0: set<string>, paths: seq<string>, i: nat)
    requires i < |paths|
    ensures var pre := RunEffect(doc, n, files0, paths[..i]);
      var d := doc(n + |pre.calls|, pre.files, paths[i]);
      RunEffect(doc, n, files0, paths[..i + 1]) ==
        if Halted(pre.reports) then pre
        else RunState(if d.report.Migrated? then Moved(pre.files, Mark(paths[i])) else pre.files,
                      pre.calls + d.calls, pre.reports + [d.report])
  {
    assert paths[..i + 1][..i] == paths[..i];
  }

  /** Once a run has stopped, the remaining descriptors change nothing. */
  lemma {:induction false} RunHalted(doc: DocStep, n: nat, files0: set<string>, paths: seq<string>, i: nat)
    requires i <= |paths|
    requires Halted(RunEffect(doc, n, files0, paths[..i]).reports)
    ensures RunEffect(doc, n, files0, paths) ==
            RunEffect(doc, n, files0, paths[..i])
    decreases |paths| - i
  {
    if i < |paths| {
      RunStep(doc, n, files0, paths, i);
      RunHalted(doc, n, files0, paths, i + 1);
    } else {
      assert paths[..i] == paths;
    }
  }

  /**
   * The loop of main.ts:188-247 over `metadataPaths`: one request log, one
   * file state and one report list, exactly those of `RunEffect`.
   */
  method Migrate(fs: FileSystem, api: Api, cfg: Config, docTypes: seq<Entity>, tags: seq<Entity>, metadataPaths: seq<string>)
    returns (reports: seq<Report>)
    modifies fs, api
    ensures var r := RunEffect(DocStepOf(api.server, fs.descriptors, cfg, docTypes, tags), |old(api.log)|, old(fs.files), metadataPaths);
      api.log == old(api.log) + r.calls && fs.files == r.files && reports == r.reports
  {
    ghost var log0, files0 := api.log, fs.files;
    ghost var doc := DocStepOf(api.server, fs.descriptors, cfg, docTypes, tags);
    reports := [];
    for i := 0 to |metadataPaths|
      invariant var r := RunEffect(doc, |log0|, files0, metadataPaths[..i]);
        api.log == log0 + r.calls && fs.files == r.files && reports == r.reports && !Halted(reports)
    {
      assert doc(|api.log|, fs.files, metadataPaths[i]) ==
             DocEffect(api.server, |api.log|, fs.files, fs.descriptors, cfg, docTypes, tags, metadataPaths[i]);
      var report := MigrateNext(fs, api, cfg, docTypes, tags, doc, log0, files0, metadataPaths, i);
      reports := reports + [report];
      if report.Stopped? {
        RunHalted(doc, |log0|, files0, metadataPaths, i + 1);
        return;
      }
    }
    assert metadataPaths[..|metadataPaths|] == metadataPaths;
  }

  /**
   * One iteration of the loop of main.ts:188-247, for a `doc` that is the
   * document step at this point of the run: the run over `paths[..i]` grows
   * to the run over `paths[..i + 1]`.
   */
  method MigrateNext(fs: FileSystem, api: Api, cfg: Config, docTypes: seq<Entity>, tags: seq<Entity>,
                     ghost doc: DocStep, ghost log0: seq<Call>, ghost files0: set<string>, paths: seq<string>, i: nat)
    returns (report: Report)
    requires i < |paths|
    requires doc(|api.log|, fs.files, paths[i]) ==
             DocEffect(api.server, |api.log|, fs.files, fs.descriptors, cfg, docTypes, tags, paths[i])
    requires var pre := RunEffect(doc, |log0|, files0, paths[..i]);
      api.log == log0 + pre.calls && fs.files == pre.files && !Halted(pre.reports)
    modifies fs, api
    ensures var pre := RunEffect(doc, |log0|, files0, paths[..i]);
      var next := RunEffect(doc, |log0|, files0, paths[..i + 1]);
      api.log == log0 + next.calls && fs.files == next.files && next.reports == pre.reports + [report]
  {
    ghost var log1, files1 := api.log, fs.files;
    report := MigrateDocument(fs, api, cfg, docTypes, tags, paths[i]);
    RunGrows(doc, log0, files0, paths, i, log1, files1, api.log, fs.files, report);
  }

  /** The bookkeeping of one iteration: the state after the document step is the run's next state. */
  lemma RunGrows(doc: DocStep, log0: seq<Call>, files0: set<string>, paths: seq<string>, i: nat,
                 log1: seq<Call>, files1: set<string>, log2: seq<Call>, files2: set<string>, report: Report)
    requires i < |paths|
    requires var pre := RunEffect(doc, |log0|, files0, paths[..i]);
      log1 == log0 + pre.calls && files1 == pre.files && !Halted(pre.reports)
    requires var d := doc(|log1|, files1, paths[i]);
      log2 == log1 + d.calls && report == d.report &&
      files2 == if report.Migrated? then Moved(files1, Mark(paths[i])) else files1
    ensures var pre := RunEffect(doc, |log0|, files0, paths[..i]);
      var next := RunEffect(doc, |log0|, files0, paths[..i + 1]);
      log2 == log0 + next.calls && files2 == next.files && next.reports == pre.reports + [report]
  {
    var pre := RunEffect(doc, |log0|, files0, paths[..i]);
    var d := doc(|log1|, files1, paths[i]);
    RunStep(doc, |log0|, files0, paths, i);
    assert (log0 + pre.calls) + d.calls == log0 + (pre.calls + d.calls);
  }

  /**
   * The script of main.ts:180-247 after its configuration checks: collect
   * the pending descriptors under `inputFolder` (the snapshot `entries`),
   * then run the migration over them. `docTypes` and `tags` are what the
   * two GET requests of main.ts:184-185 return.
   */
  method RunMigration(fs: FileSystem, api: Api, cfg: Config, inputFolder: string, entries: seq<Node>,
                      docTypes: seq<Entity>, tags: seq<Entity>)
    returns (reports: seq<Report>)
    modifies fs, api
    ensures var r := RunEffect(DocStepOf(api.server, fs.descriptors, cfg, docTypes, tags), |old(api.log)|, old(fs.files),
                               Walker.MetadataPaths(inputFolder, entries));
      api.log == old(api.log) + r.calls && fs.files == r.files && reports == r.reports
  {
    var metadataPaths := Walker.GetMetadataPaths(inputFolder, entries);
    reports := Migrate(fs, api, cfg, docTypes, tags, metadataPaths);
  }

  /**
   * Reports come in walk order, one per descriptor visited; no report but
   * the last stops the run, and a run that did not visit every descriptor
   * was stopped.
   */
  lemma {:induction false} RunShape(doc: DocStep, n: nat, files0: set<string>, paths: seq<string>)
    requires NamesPath(doc)
    ensures var reports := RunEffect(doc, n, files0, paths).reports;
      (forall j :: 0 <= j < |reports| ==> reports[j].path == paths[j]) &&
      (forall j :: 0 <= j < |reports| - 1 ==> !reports[j].Stopped?) &&
      (|reports| < |paths| ==> Halted(reports))
  {
    if paths != [] {
      var init := paths[..|paths| - 1];
      var pre := RunEffect(doc, n, files0, init);
      RunShape(doc, n, files0, init);
    }
  }

  lemma MarksLast(reports: seq<Report>, x: Report)
    ensures Marks(reports + [x]) == Marks(reports) + (if x.Migrated? then [Mark(x.path)] else [])
  {
    assert (reports + [x])[..|reports|] == reports;
  }

  lemma AfterMovesLast(files: set<string>, moves: seq<Move>, m: Move)
    ensures AfterMoves(files, moves + [m]) == Moved(AfterMoves(files, moves), m)
  {
    assert (moves + [m])[..|moves|] == moves;
  }

  /** The files after a run are the start files with the requested renames applied, in order. */
  lemma {:induction false} RunFiles(doc: DocStep, n: nat, files0: set<string>, paths: seq<string>)
    requires NamesPath(doc)
    ensures var r := RunEffect(doc, n, files0, paths);
      r.files == AfterMoves(files0, Marks(r.reports))
  {
    if paths != [] {
      var init := paths[..|paths| - 1];
      var pre := RunEffect(doc, n, files0, init);
      RunFiles(doc, n, files0, init);
      if !Halted(pre.reports) {
        var p := paths[|paths| - 1];
        var d := doc(n + |pre.calls|, pre.files, p);
        var r := RunEffect(doc, n, files0, paths);
        assert r == RunState(if d.report.Migrated? then Moved(pre.files, Mark(p)) else pre.files,
                             pre.calls + d.calls, pre.reports + [d.report]);
        MarkStep(files0, pre, d, p, r);
      }
    }
  }

  /** One more report keeps the files equal to the start files after the requested renames. */
  lemma MarkStep(files0: set<string>, pre: RunState, d: DocOutcome, p: string, r: RunState)
    requires pre.files == AfterMoves(files0, Marks(pre.reports)) && d.report.path == p
    requires r == RunState(if d.report.Migrated? then Moved(pre.files, Mark(p)) else pre.files,
                           pre.calls + d.calls, pre.reports + [d.report])
    ensures r.files == AfterMoves(files0, Marks(r.reports))
  {
    MarksLast(pre.reports, d.report);
    assert r.reports == pre.reports + [d.report];
    if d.report.Migrated? {
      assert Marks(r.reports) == Marks(pre.reports) + [Mark(p)];
      AfterMovesLast(files0, Marks(pre.reports), Mark(p));
      assert r.files == Moved(pre.files, Mark(p));
    } else {
      assert Marks(r.reports) == Marks(pre.reports) + [];
      assert Marks(pre.reports) + [] == Marks(pre.reports);
    }
  }

  /** The renames are those of the migrated reports, one per report. */
  lemma {:induction false} MarksMembers(reports: seq<Report>)
    ensures forall m :: m in Marks(reports) <==> exists r :: r in reports && r.Migrated? && m == Mark(r.path)
  {
    if reports != [] {
      var init, last := reports[..|reports| - 1], reports[|reports| - 1];
      MarksMembers(init);
      assert reports == init + [last];
      forall m ensures m in Marks(reports) <==> exists r :: r in reports && r.Migrated? && m == Mark(r.path) {
        if m in Marks(reports) && m !in Marks(init) {
          assert m == Mark(last.path) && last in reports;
        }
        if exists r :: r in reports && r.Migrated? && m == Mark(r.path) {
          var r :| r in reports && r.Migrated? && m == Mark(r.path);
          if r != last {
            assert r in init;
          }
        }
      }
    }
  }

  /** The migrated descriptors' paths and the `.done` names they were renamed to. */
  lemma MarksSets(reports: seq<Report>)
    ensures Sources(Marks(reports)) == Migrations(reports)
    ensures Targets(Marks(reports)) == set p | p in Migrations(reports) :: p + DoneSuffix
  {
    MarksMembers(reports);
    forall p | p in Migrations(reports) ensures p in Sources(Marks(reports)) && p + DoneSuffix in Targets(Marks(reports)) {
      var r :| r in reports && r.Migrated? && r.path == p;
      assert Mark(p) in Marks(reports);
    }
  }

  /** Every reported path is one of the walked paths. */
  lemma ReportedPaths(doc: DocStep, n: nat, files0: set<string>, paths: seq<string>)
    requires NamesPath(doc)
    ensures forall r :: r in RunEffect(doc, n, files0, paths).reports ==> r.path in paths
  {
    var reports := RunEffect(doc, n, files0, paths).reports;
    RunShape(doc, n, files0, paths);
    forall r | r in reports ensures r.path in paths {
      var j :| 0 <= j < |reports| && reports[j] == r;
    }
  }

  /** A pending descriptor's path and a migrated one's are never the same. */
  lemma MarkedName(p: string)
    requires Basename(p) == MetadataName
    ensures Basename(p + DoneSuffix) == DoneName && Basename(p + DoneSuffix) != MetadataName
  {
    DoneNameIsSuffixed();
    BasenameAppend(p, DoneSuffix);
  }

  /**
   * When every walked path names a `metadata.json`, each migrated
   * descriptor is renamed exactly once: the migrated paths are gone, their
   * `.done` names are there, and every other file is as it was.
   */
  lemma RunAsSets(doc: DocStep, n: nat, files0: set<string>, paths: seq<string>)
    requires NamesPath(doc)
    requires forall p :: p in paths ==> Basename(p) == MetadataName
    ensures var r := RunEffect(doc, n, files0, paths);
      r.files == (files0 - Migrations(r.reports)) + (set p | p in Migrations(r.reports) :: p + DoneSuffix)
  {
    var r := RunEffect(doc, n, files0, paths);
    var moves := Marks(r.reports);
    RunFiles(doc, n, files0, paths);
    ReportedPaths(doc, n, files0, paths);
    MarksMembers(r.reports);
    forall m, m' | m in moves && m' in moves ensures m.from != m'.to {
      var x :| x in r.reports && x.Migrated? && m == Mark(x.path);
      var y :| y in r.reports && y.Migrated? && m' == Mark(y.path);
      MarkedName(y.path);
    }
    AfterMovesAsSets(files0, moves);
    MarksSets(r.reports);
  }
}
