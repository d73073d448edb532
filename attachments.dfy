/**
 * Where main.ts finds the stored files of a document: in the `files`
 * directory beside its descriptor, under the attachment's name with
 * ".converted" removed (main.ts:49-66, 221).
 */
module Attachments {
  import opened Wrappers
  import opened Strings
  import opened DirTree
  import opened Docspell
  import opened Settings

  /** The marker Docspell puts in the names of converted attachments. */
  const ConvertedMarker := ".converted"

  /** `attachment.name.replace('.converted', '')` (main.ts:53, 221): the first occurrence only. */
  function FileName(a: Attachment): string
  {
    ReplaceFirst(a.name, ConvertedMarker, "")
  }

  /** `${folderPath}/files/${...}` (main.ts:53). */
  function AttachmentPath(folder: string, a: Attachment): string
  {
    folder + "/files/" + FileName(a)
  }

  /** The attachment paths of `atts`, in order. */
  function AttachmentPaths(folder: string, atts: seq<Attachment>): seq<string>
  {
    seq(|atts|, i requires 0 <= i < |atts| => AttachmentPath(folder, atts[i]))
  }

  /** A name without the marker is kept as it is. */
  lemma FileNamePlain(a: Attachment)
    requires !Contains(a.name, ConvertedMarker)
    ensures FileName(a) == a.name
  {
    ReplaceFirstAbsent(a.name, ConvertedMarker, "");
  }

  /** A converted name loses its first marker and nothing else: "x.converted.pdf" is stored as "x.pdf". */
  lemma FileNameConverted(stem: string, rest: string)
    requires !Contains(stem, ConvertedMarker)
    ensures FileName(Attachment(stem + ConvertedMarker + rest)) == stem + rest
  {
    assert ConvertedMarker[1..] == "converted";
    ReplaceFirstAfter(stem, ConvertedMarker, rest);
  }

  /**
   * `getAttachmentPaths(metadata, metadataPath)` (main.ts:49-57): one path
   * per attachment, in attachment order, in the `files` directory next to
   * the descriptor.
   */
  method GetAttachmentPaths(metadata: Metadata, metadataPath: string) returns (paths: seq<string>)
    ensures paths == AttachmentPaths(Dirname(metadataPath), metadata.attachments)
    ensures |paths| == |metadata.attachments|
    ensures forall i :: 0 <= i < |paths| ==>
              paths[i] == Dirname(metadataPath) + "/files/" + FileName(metadata.attachments[i])
  {
    var folderPath := Dirname(metadataPath);
    paths := [];
    for i := 0 to |metadata.attachments|
      invariant |paths| == i
      invariant forall j :: 0 <= j < i ==> paths[j] == AttachmentPath(folderPath, metadata.attachments[j])
    {
      paths := paths + [AttachmentPath(folderPath, metadata.attachments[i])];
    }
  }

  /**
   * For a descriptor found by the walker, `Join(dir, "metadata.json")`, the
   * i-th attachment path lies in `dir/files` and is named by the stripped
   * attachment name.
   */
  lemma AttachmentBesideDescriptor(dir: string, a: Attachment)
    requires dir != ""
    requires '/' !in FileName(a)
    ensures AttachmentPath(Dirname(Join(dir, MetadataName)), a) == Join(Join(dir, "files"), FileName(a))
    ensures Dirname(AttachmentPath(Dirname(Join(dir, MetadataName)), a)) == Join(dir, "files")
    ensures Basename(AttachmentPath(Dirname(Join(dir, MetadataName)), a)) == FileName(a)
  {
    JoinSplit(dir, MetadataName);
    var p := AttachmentPath(dir, a);
    assert p == Join(Join(dir, "files"), FileName(a));
    JoinSplit(Join(dir, "files"), FileName(a));
  }

  /** The first of `paths` that is not a file, if any. */
  function FirstMissing(files: set<string>, paths: seq<string>): (r: Option<nat>)
    ensures r.None? <==> forall i :: 0 <= i < |paths| ==> paths[i] in files
    ensures r.Some? ==> r.value < |paths| && paths[r.value] !in files &&
                        forall i :: 0 <= i < r.value ==> paths[i] in files
  {
    if paths == [] then None
    else if paths[0] !in files then Some(0)
    else match FirstMissing(files, paths[1..]) {
      case None => None
      case Some(k) => Some(k + 1)
    }
  }

  /**
   * `getAttachmentFiles(attachmentPaths)` (main.ts:59-66): reads the files
   * in order and throws at the first one that does not exist. A file's
   * content is represented by the path it was read from.
   */
  method GetAttachmentFiles(files: set<string>, attachmentPaths: seq<string>) returns (r: Result<seq<string>, Failure>)
    ensures r.Ok? <==> FirstMissing(files, attachmentPaths).None?
    ensures r.Ok? ==> r.value == attachmentPaths
    ensures r.Err? ==> r.error == AttachmentMissing(attachmentPaths[FirstMissing(files, attachmentPaths).value])
  {
    var contents: seq<string> := [];
    for i := 0 to |attachmentPaths|
      invariant contents == attachmentPaths[..i]
      invariant forall j :: 0 <= j < i ==> attachmentPaths[j] in files
    {
      var attachmentPath := attachmentPaths[i];
      if attachmentPath !in files {
        return Err(AttachmentMissing(attachmentPath));
      }
      contents := contents + [attachmentPath];
    }
    assert attachmentPaths[..|attachmentPaths|] == attachmentPaths;
    r := Ok(contents);
  }
}
