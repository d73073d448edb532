/**
 * The live filesystem the scripts rename files in. Listings are taken as
 * snapshots (`DirTree.Listing`); the state that renames change is the set
 * of paths of the regular files that exist, which is what `Deno.rename`
 * acts on: a rename removes one path and adds another, whichever
 * directories the two lie in.
 */
module Disk {
  import opened Wrappers
  import opened Docspell

  /** A rename request from one path to another. */
  datatype Move = Move(from: string, to: string)

  /** The live filesystem. */
  class FileSystem {
    /** Paths of the regular files that exist. */
    var files: set<string>
    /** The descriptor files whose content parses, with what it parses to. */
    const descriptors: map<string, Metadata>
    /** Paths the operating system refuses to rename (permissions, a missing target directory). */
    const refused: set<string>

    constructor (files: set<string>, descriptors: map<string, Metadata>, refused: set<string>)
      ensures this.files == files && this.descriptors == descriptors && this.refused == refused
    {
      this.files := files;
      this.descriptors := descriptors;
      this.refused := refused;
    }

    /** `JSON.parse(await Deno.readTextFile(path))`: None when the file is missing or does not parse. */
    function ReadDescriptor(path: string): Option<Metadata>
      reads this
    {
      Read(files, descriptors, path)
    }

    /** `await Deno.rename(from, to)`, which can fail. */
    method Rename(from: string, to: string) returns (ok: bool)
      modifies this
      ensures ok == (from in old(files) && from !in refused)
      ensures files == if ok then Moved(old(files), Move(from, to)) else old(files)
    {
      ok := from in files && from !in refused;
      if ok {
        files := Moved(files, Move(from, to));
      }
    }

    /** An unawaited `Deno.rename(from, to)`, taken to succeed at once. */
    method MoveNow(from: string, to: string)
      modifies this
      ensures files == Moved(old(files), Move(from, to))
    {
      files := Moved(files, Move(from, to));
    }
  }

  /** Reading and parsing a descriptor file. */
  function Read(files: set<string>, descriptors: map<string, Metadata>, path: string): (r: Option<Metadata>)
    ensures r.Some? <==> path in files && path in descriptors
    ensures r.Some? ==> r.value == descriptors[path]
  {
    if path in files && path in descriptors then Some(descriptors[path]) else None
  }

  /** The files after one rename that takes effect. */
  function Moved(files: set<string>, m: Move): (r: set<string>)
    ensures m.to in r && (m.from != m.to ==> m.from !in r)
    ensures forall q :: q != m.from && q != m.to ==> (q in r <==> q in files)
  {
    files - {m.from} + {m.to}
  }

  /** The files after `moves` are applied in order, each of them taking effect. */
  function AfterMoves(files: set<string>, moves: seq<Move>): set<string>
  {
    if moves == [] then files
    else Moved(AfterMoves(files, moves[..|moves| - 1]), moves[|moves| - 1])
  }

  /** The outcome of attempting renames in order: the files afterwards, and which attempts succeeded. */
  datatype Renames = Renames(files: set<string>, succeeded: seq<bool>)

  /** Attempting `moves` in order, each failing when its source is missing or the OS refuses it. */
  function AttemptAll(files: set<string>, refused: set<string>, moves: seq<Move>): (r: Renames)
    ensures |r.succeeded| == |moves|
  {
    if moves == [] then Renames(files, [])
    else
      var pre := AttemptAll(files, refused, moves[..|moves| - 1]);
      var m := moves[|moves| - 1];
      var ok := m.from in pre.files && m.from !in refused;
      Renames(if ok then Moved(pre.files, m) else pre.files, pre.succeeded + [ok])
  }

  /** Attempting `a` then `b` is attempting `a + b`. */
  lemma {:induction false} AttemptAllAppend(files: set<string>, refused: set<string>, a: seq<Move>, b: seq<Move>)
    decreases b
    ensures var first := AttemptAll(files, refused, a);
      var second := AttemptAll(first.files, refused, b);
      AttemptAll(files, refused, a + b) == Renames(second.files, first.succeeded + second.succeeded)
  {
    if b == [] {
      assert a + b == a;
    } else {
      var b' := b[..|b| - 1];
      assert (a + b)[..|a + b| - 1] == a + b';
      assert (a + b)[|a + b| - 1] == b[|b| - 1];
      AttemptAllAppend(files, refused, a, b');
    }
  }

  function Sources(moves: seq<Move>): set<string>
  {
    set m | m in moves :: m.from
  }

  function Targets(moves: seq<Move>): set<string>
  {
    set m | m in moves :: m.to
  }

  /** No path is the source of one move and the target of another. */
  ghost predicate Separated(moves: seq<Move>)
  {
    forall m, m' :: m in moves && m' in moves ==> m.from != m'.to
  }

  /** Two moves from one source go to one target. */
  ghost predicate Functional(moves: seq<Move>)
  {
    forall m, m' :: m in moves && m' in moves && m.from == m'.from ==> m.to == m'.to
  }

  lemma SourcesTargetsLast(moves: seq<Move>)
    requires moves != []
    ensures var init, m := moves[..|moves| - 1], moves[|moves| - 1];
      Sources(moves) == Sources(init) + {m.from} && Targets(moves) == Targets(init) + {m.to}
  {
    assert moves == moves[..|moves| - 1] + [moves[|moves| - 1]];
  }

  /** Moves that keep sources and targets apart amount to one set difference and one union. */
  lemma {:induction false} AfterMovesAsSets(files: set<string>, moves: seq<Move>)
    requires Separated(moves)
    ensures AfterMoves(files, moves) == (files - Sources(moves)) + Targets(moves)
  {
    if moves != [] {
      var init, m := moves[..|moves| - 1], moves[|moves| - 1];
      assert forall x :: x in init ==> x in moves;
      AfterMovesAsSets(files, init);
      SourcesTargetsLast(moves);
      assert m.from !in Targets(init);
    }
  }

  /**
   * Renames of existing files, none refused, that keep sources and targets
   * apart amount to one set difference and one union, whatever their order
   * and even when one source is requested twice.
   */
  lemma {:induction false} AttemptAllAsSets(files: set<string>, refused: set<string>, moves: seq<Move>)
    requires Separated(moves) && Functional(moves)
    requires Sources(moves) <= files && Sources(moves) !! refused
    ensures AttemptAll(files, refused, moves).files == (files - Sources(moves)) + Targets(moves)
  {
    if moves != [] {
      var init, m := moves[..|moves| - 1], moves[|moves| - 1];
      assert forall x :: x in init ==> x in moves;
      SourcesTargetsLast(moves);
      AttemptAllAsSets(files, refused, init);
      var pre := AttemptAll(files, refused, init);
      assert m.from !in Targets(init);
      if m.from !in pre.files {
        assert m.from in Sources(init);
        var m' :| m' in init && m'.from == m.from;
        assert m.to in Targets(init);
      }
    }
  }

  /** With no source refused and sources that exist and are never targets, every rename succeeds. */
  lemma {:induction false} AttemptAllSucceeds(files: set<string>, refused: set<string>, moves: seq<Move>, i: nat)
    requires Separated(moves) && i < |moves|
    requires Sources(moves) <= files && Sources(moves) !! refused
    requires forall j, k :: 0 <= j < k < |moves| ==> moves[j].from != moves[k].from
    ensures AttemptAll(files, refused, moves).succeeded[i]
  {
    var k := |moves| - 1;
    var init := moves[..k];
    SucceedsInit(files, refused, moves);
    if i < k {
      AttemptAllSucceeds(files, refused, init, i);
    } else {
      AttemptAllKeeps(files, refused, init, moves[k].from);
    }
  }

  /** The conditions of `AttemptAllSucceeds` hold for all but the last move, whose source none of them uses. */
  lemma SucceedsInit(files: set<string>, refused: set<string>, moves: seq<Move>)
    requires Separated(moves) && moves != []
    requires Sources(moves) <= files && Sources(moves) !! refused
    requires forall j, k :: 0 <= j < k < |moves| ==> moves[j].from != moves[k].from
    ensures var init, m := moves[..|moves| - 1], moves[|moves| - 1];
      Separated(init) && Sources(init) <= files && Sources(init) !! refused &&
      (forall j, k :: 0 <= j < k < |init| ==> init[j].from != init[k].from) &&
      m.from in files && m.from !in refused && m.from !in Sources(init)
  {
    var init, m := moves[..|moves| - 1], moves[|moves| - 1];
    assert forall x :: x in init ==> x in moves;
    SourcesTargetsLast(moves);
    forall j | 0 <= j < |init| ensures init[j].from != m.from {
      assert init[j] == moves[j];
    }
  }

  /** A path no earlier move touches is still there. */
  lemma {:induction false} AttemptAllKeeps(files: set<string>, refused: set<string>, moves: seq<Move>, p: string)
    requires p in files && p !in Sources(moves)
    ensures p in AttemptAll(files, refused, moves).files
  {
    if moves != [] {
      SourcesTargetsLast(moves);
      AttemptAllKeeps(files, refused, moves[..|moves| - 1], p);
    }
  }
}
