/**
 * One iteration of the migration loop of main.ts:188-246: read the
 * descriptor, skip it when it has no attachments, build the form of the
 * document's fields, upload each attachment with that form, and mark the
 * descriptor as done once every upload has been accepted.
 */
module Documents {
  import opened Wrappers
  import opened Strings
  import opened DirTree
  import opened Docspell
  import opened Paperless
  import opened Disk
  import opened Settings
  import opened Attachments
  import opened References

  const TitleField := "title"
  const CreatedField := "created"
  const StoragePathField := "storage_path"
  const DocumentField := "document"

  /** What happened to one descriptor, as the script's progress lines report it. */
  datatype Report =
    | Skipped(path: string)
    | Migrated(path: string, uploads: nat)
    | Stopped(path: string, failure: Failure)

  /** The fields main.ts:206-208 append first. */
  function HeaderFields(cfg: Config, metadata: Metadata): seq<Field>
  {
    [Field(TitleField, Text(metadata.name)), Field(CreatedField, Text(metadata.date)),
     Field(StoragePathField, Text(cfg.storagePathId))]
  }

  /** The `document` part of an upload (main.ts:221-223): the file under its stripped name. */
  function DocumentPart(a: Attachment, content: string): Field
  {
    Field(DocumentField, Document(FileName(a), content))
  }

  /** The parts posted by the upload loop: part i is the `document` part of attachment i. */
  function Parts(atts: seq<Attachment>, contents: seq<string>): (r: seq<Field>)
    requires |contents| == |atts|
    ensures |r| == |atts|
    ensures forall i {:trigger r[i]} :: 0 <= i < |atts| ==> r[i] == DocumentPart(atts[i], contents[i]) && r[i].name == DocumentField
  {
    seq(|atts|, i requires 0 <= i < |atts| => DocumentPart(atts[i], contents[i]))
  }

  /** The upload requests of one document and the status of the rejected one, if any. */
  datatype Uploads = Uploads(calls: seq<Call>, rejected: Option<int>)

  /** The upload loop of main.ts:220-238 from the `n`-th request of the run on: the first rejection ends it. */
  function UploadsEffect(server: Server, n: nat, base: seq<Field>, parts: seq<Field>): Uploads
  {
    if parts == [] then Uploads([], None)
    else
      var pre := UploadsEffect(server, n, base, parts[..|parts| - 1]);
      if pre.rejected.Some? then pre
      else
        var c := PostDocument(base + [parts[|parts| - 1]]);
        var response := server.respond(n + |pre.calls|, c);
        Uploads(pre.calls + [c], if response.ok then None else Some(response.status))
  }

  /** No field of `fields` is a `document` part. */
  predicate NoDocument(fields: seq<Field>)
  {
    forall i :: 0 <= i < |fields| ==> fields[i].name != DocumentField
  }

  lemma {:induction false} UploadsStep(server: Server, n: nat, base: seq<Field>, parts: seq<Field>, i: nat)
    requires i < |parts|
    requires UploadsEffect(server, n, base, parts[..i]).rejected.None?
    ensures var pre := UploadsEffect(server, n, base, parts[..i]);
      var c := PostDocument(base + [parts[i]]);
      var response := server.respond(n + |pre.calls|, c);
      UploadsEffect(server, n, base, parts[..i + 1]) == Uploads(pre.calls + [c], if response.ok then None else Some(response.status))
  {
    assert parts[..i + 1][..i] == parts[..i];
  }

  lemma {:induction false} UploadsStop(server: Server, n: nat, base: seq<Field>, parts: seq<Field>, i: nat)
    requires i <= |parts|
    requires UploadsEffect(server, n, base, parts[..i]).rejected.Some?
    decreases |parts| - i
    ensures UploadsEffect(server, n, base, parts) == UploadsEffect(server, n, base, parts[..i])
  {
    if i < |parts| {
      assert parts[..i + 1][..i] == parts[..i];
      UploadsStop(server, n, base, parts, i + 1);
    } else {
      assert parts[..i] == parts;
    }
  }

  /**
   * The upload loop of main.ts:220-238 on `form`, whose fields are the
   * document's: each attachment is appended as the one `document` part,
   * the whole form is posted, and the part is deleted again.
   */
  method UploadAll(form: FormData, api: Api, atts: seq<Attachment>, contents: seq<string>) returns (rejected: Option<int>)
    requires |contents| == |atts|
    requires NoDocument(form.fields)
    modifies form, api
    ensures var u := UploadsEffect(api.server, |old(api.log)|, old(form.fields), Parts(atts, contents));
      api.log == old(api.log) + u.calls && rejected == u.rejected
    ensures rejected.None? ==> form.fields == old(form.fields)
    ensures var u := UploadsEffect(api.server, |old(api.log)|, old(form.fields), Parts(atts, contents));
      rejected.Some? ==>
        |form.fields| == |old(form.fields)| + 1 && form.fields[..|old(form.fields)|] == old(form.fields) &&
        u.calls != [] && u.calls[|u.calls| - 1] == PostDocument(form.fields)
  {
    ghost var n, base, log0 := |api.log|, form.fields, api.log;
    var parts := Parts(atts, contents);
    for i := 0 to |contents|
      invariant form.fields == base
      invariant UploadsEffect(api.server, n, base, parts[..i]).rejected.None?
      invariant api.log == log0 + UploadsEffect(api.server, n, base, parts[..i]).calls
    {
      var fileName := FileName(atts[i]);
      form.Append(DocumentField, Document(fileName, contents[i]));
      assert form.fields == base + [parts[i]];
      ghost var logMid := api.log;
      var response := api.Send(PostDocument(form.fields));
      UploadGrows(api.server, n, base, parts, i, log0, logMid, api.log);
      if !response.ok {
        UploadsStop(api.server, n, base, parts, i + 1);
        assert form.fields[..|base|] == base;
        assert api.log[|api.log| - 1] == PostDocument(form.fields);
        return Some(response.status);
      }
      form.Delete(DocumentField);
      AppendThenDelete(base, DocumentField, Document(fileName, contents[i]));
    }
    assert parts[..|contents|] == parts;
    rejected := None;
  }

  /** One iteration of `UploadAll`: the log after one more post is that of the longer prefix. */
  lemma {:induction false} UploadGrows(server: Server, n: nat, base: seq<Field>, parts: seq<Field>, i: nat,
                    log0: seq<Call>, log1: seq<Call>, log2: seq<Call>)
    requires i < |parts| && n == |log0|
    requires var pre := UploadsEffect(server, n, base, parts[..i]);
      pre.rejected.None? && log1 == log0 + pre.calls
    requires log2 == log1 + [PostDocument(base + [parts[i]])]
    ensures var response := server.respond(|log1|, PostDocument(base + [parts[i]]));
      var next := UploadsEffect(server, n, base, parts[..i + 1]);
      log2 == log0 + next.calls && next.rejected == (if response.ok then None else Some(response.status))
  {
    var pre := UploadsEffect(server, n, base, parts[..i]);
    UploadsStep(server, n, base, parts, i);
    assert (log0 + pre.calls) + [PostDocument(base + [parts[i]])] == log0 + (pre.calls + [PostDocument(base + [parts[i]])]);
  }

  /**
   * When every upload is accepted there is one per attachment, in order,
   * each posting the document's fields followed by exactly one `document`
   * part, that attachment's.
   */
  lemma {:induction false} UploadsAccepted(server: Server, n: nat, base: seq<Field>, parts: seq<Field>)
    requires NoDocument(base)
    requires forall i :: 0 <= i < |parts| ==> parts[i].name == DocumentField
    requires UploadsEffect(server, n, base, parts).rejected.None?
    ensures var u := UploadsEffect(server, n, base, parts);
      |u.calls| == |parts| &&
      forall i :: 0 <= i < |parts| ==>
        u.calls[i] == PostDocument(base + [parts[i]]) && CountField(base + [parts[i]], DocumentField) == 1 &&
        server.respond(n + i, u.calls[i]).ok
  {
    if parts != [] {
      var k := |parts| - 1;
      var pre := UploadsEffect(server, n, base, parts[..k]);
      assert pre.rejected.None?;
      UploadsAccepted(server, n, base, parts[..k]);
      var u := UploadsEffect(server, n, base, parts);
      assert u.calls == pre.calls + [PostDocument(base + [parts[k]])];
      forall i | 0 <= i < |parts|
        ensures u.calls[i] == PostDocument(base + [parts[i]])
        ensures CountField(base + [parts[i]], DocumentField) == 1
        ensures server.respond(n + i, u.calls[i]).ok
      {
        AppendedOnce(base, DocumentField, parts[i].value);
        assert base + [parts[i]] == base + [Field(DocumentField, parts[i].value)];
        if i < k {
          assert u.calls[i] == pre.calls[i] && parts[..k][i] == parts[i];
        }
      }
    }
  }

  /** A rejection ends the loop: every earlier upload was accepted and the rejected one is the last request. */
  lemma {:induction false} UploadsRejected(server: Server, n: nat, base: seq<Field>, parts: seq<Field>)
    requires UploadsEffect(server, n, base, parts).rejected.Some?
    ensures var u := UploadsEffect(server, n, base, parts);
      0 < |u.calls| <= |parts| &&
      (forall i :: 0 <= i < |u.calls| - 1 ==> server.respond(n + i, u.calls[i]).ok) &&
      !server.respond(n + |u.calls| - 1, u.calls[|u.calls| - 1]).ok &&
      u.rejected.value == server.respond(n + |u.calls| - 1, u.calls[|u.calls| - 1]).status
  {
    var k := |parts| - 1;
    var pre := UploadsEffect(server, n, base, parts[..k]);
    if pre.rejected.Some? {
      UploadsRejected(server, n, base, parts[..k]);
    } else {
      UploadsOk(server, n, base, parts[..k]);
    }
  }

  /** Without a rejection every upload was accepted, one per part. */
  lemma {:induction false} UploadsOk(server: Server, n: nat, base: seq<Field>, parts: seq<Field>)
    requires UploadsEffect(server, n, base, parts).rejected.None?
    ensures var u := UploadsEffect(server, n, base, parts);
      |u.calls| == |parts| && forall i :: 0 <= i < |u.calls| ==> server.respond(n + i, u.calls[i]).ok
  {
    if parts != [] {
      var k := |parts| - 1;
      UploadsOk(server, n, base, parts[..k]);
    }
  }

  /** main.ts:209-211 from the `n`-th request of the run on: the correspondent field, if the document has one. */
  function CorrespondentEffect(server: Server, n: nat, corr: Option<Organisation>): Effect
  {
    match corr {
      case None => Effect([], [], None)
      case Some(org) =>
        var l := CorrespondentLookup(server, n, org);
        match l.result {
          case Ok(id) => Effect([Field(CorrespondentField, Number(id))], l.calls, None)
          case Err(e) => Effect([], l.calls, Some(e))
        }
    }
  }

  /**
   * main.ts:203-215 from the `n`-th request of the run on: the fields every
   * upload of the document shares, the requests made to build them, and
   * the failure that ended the script, if one did.
   */
  function FormEffect(server: Server, n: nat, cfg: Config, docTypes: seq<Entity>, tags: seq<Entity>, metadata: Metadata): Effect
  {
    var corr := CorrespondentEffect(server, n, metadata.corrOrg);
    if corr.failure.Some? then Effect([], corr.calls, corr.failure)
    else
      var te := TagsEffect(server, n + |corr.calls|, cfg, docTypes, tags, metadata.tags);
      Effect(HeaderFields(cfg, metadata) + corr.fields + te.fields, corr.calls + te.calls, te.failure)
  }

  /** The shared fields and the requests and failure of building and uploading a document. */
  datatype Submission = Submission(base: seq<Field>, calls: seq<Call>, failure: Option<Failure>)

  /** main.ts:203-238 for a descriptor whose attachment files were read as `contents`. */
  function SubmitEffect(server: Server, n: nat, cfg: Config, docTypes: seq<Entity>, tags: seq<Entity>,
                        metadata: Metadata, contents: seq<string>): Submission
    requires |contents| == |metadata.attachments|
  {
    var form := FormEffect(server, n, cfg, docTypes, tags, metadata);
    if form.failure.Some? then Submission([], form.calls, form.failure)
    else
      var up := UploadsEffect(server, n + |form.calls|, form.fields, Parts(metadata.attachments, contents));
      Submission(form.fields, form.calls + up.calls, if up.rejected.Some? then Some(UploadRejected(up.rejected.value)) else None)
  }

  /** The shared fields are never `document` parts. */
  lemma {:induction false} FormHasNoDocument(server: Server, n: nat, cfg: Config, docTypes: seq<Entity>, tags: seq<Entity>, metadata: Metadata)
    ensures NoDocument(FormEffect(server, n, cfg, docTypes, tags, metadata).fields)
  {
    var corr := CorrespondentEffect(server, n, metadata.corrOrg);
    if corr.failure.None? {
      var te := TagsEffect(server, n + |corr.calls|, cfg, docTypes, tags, metadata.tags);
      TagsFieldNames(server, n + |corr.calls|, cfg, docTypes, tags, metadata.tags);
      var all := HeaderFields(cfg, metadata) + corr.fields + te.fields;
      forall i | 0 <= i < |all| ensures all[i].name != DocumentField {
        if i >= 3 + |corr.fields| {
          assert all[i] in te.fields;
        } else if i >= 3 {
          assert all[i] == corr.fields[i - 3];
        }
      }
    }
  }

  /** main.ts:209-211 on the form. */
  method AddCorrespondent(form: FormData, api: Api, corr: Option<Organisation>) returns (failure: Option<Failure>)
    modifies form, api
    ensures var e := CorrespondentEffect(api.server, |old(api.log)|, corr);
      form.fields == old(form.fields) + e.fields && api.log == old(api.log) + e.calls && failure == e.failure
  {
    if corr.Some? {
      var id := GetCorrespondentId(api, corr.value);
      if id.Err? {
        return Some(id.error);
      }
      form.Append(CorrespondentField, Number(id.value));
    }
    failure := None;
  }

  /** main.ts:203-215: a fresh form with the document's fields. */
  method BuildForm(api: Api, cfg: Config, docTypes: seq<Entity>, tags: seq<Entity>, metadata: Metadata)
    returns (formData: FormData, failure: Option<Failure>)
    modifies api
    ensures fresh(formData)
    ensures var e := FormEffect(api.server, |old(api.log)|, cfg, docTypes, tags, metadata);
      api.log == old(api.log) + e.calls && failure == e.failure && (failure.None? ==> formData.fields == e.fields)
  {
    ghost var n, log0, server := |api.log|, api.log, api.server;
    formData := new FormData();
    formData.Append(TitleField, Text(metadata.name));
    formData.Append(CreatedField, Text(metadata.date));
    formData.Append(StoragePathField, Text(cfg.storagePathId));
    assert formData.fields == HeaderFields(cfg, metadata);
    failure := AddCorrespondent(formData, api, metadata.corrOrg);
    if failure.Some? {
      return;
    }
    ghost var log1, fields1 := api.log, formData.fields;
    failure := AddTags(formData, api, cfg, docTypes, tags, metadata.tags);
    FormGrows(server, n, cfg, docTypes, tags, metadata, log0, log1, api.log, fields1, formData.fields, failure);
  }

  /** The bookkeeping of `BuildForm`: the correspondent's effect, then the tags', is the form's. */
  lemma {:induction false} FormGrows(server: Server, n: nat, cfg: Config, docTypes: seq<Entity>, tags: seq<Entity>, metadata: Metadata,
                  log0: seq<Call>, log1: seq<Call>, log2: seq<Call>, fields1: seq<Field>, fields2: seq<Field>,
                  f: Option<Failure>)
    requires var corr := CorrespondentEffect(server, n, metadata.corrOrg);
      corr.failure.None? && log1 == log0 + corr.calls && fields1 == HeaderFields(cfg, metadata) + corr.fields
    requires var te := TagsEffect(server, n + |CorrespondentEffect(server, n, metadata.corrOrg).calls|, cfg, docTypes, tags, metadata.tags);
      log2 == log1 + te.calls && fields2 == fields1 + te.fields && f == te.failure
    ensures var e := FormEffect(server, n, cfg, docTypes, tags, metadata);
      log2 == log0 + e.calls && f == e.failure && fields2 == e.fields
  {
    var corr := CorrespondentEffect(server, n, metadata.corrOrg);
    var te := TagsEffect(server, n + |corr.calls|, cfg, docTypes, tags, metadata.tags);
    assert (log0 + corr.calls) + te.calls == log0 + (corr.calls + te.calls);
    FormEffectOk(server, n, cfg, docTypes, tags, metadata);
  }

  /** `FormEffect` once the correspondent step has succeeded. */
  lemma {:induction false} FormEffectOk(server: Server, n: nat, cfg: Config, docTypes: seq<Entity>, tags: seq<Entity>, metadata: Metadata)
    requires CorrespondentEffect(server, n, metadata.corrOrg).failure.None?
    ensures var corr := CorrespondentEffect(server, n, metadata.corrOrg);
      var te := TagsEffect(server, n + |corr.calls|, cfg, docTypes, tags, metadata.tags);
      FormEffect(server, n, cfg, docTypes, tags, metadata) ==
      Effect(HeaderFields(cfg, metadata) + corr.fields + te.fields, corr.calls + te.calls, te.failure)
  {
  }

  /** main.ts:203-238: build the document's form and upload each attachment with it. */
  method Submit(api: Api, cfg: Config, docTypes: seq<Entity>, tags: seq<Entity>, metadata: Metadata, contents: seq<string>)
    returns (failure: Option<Failure>)
    requires |contents| == |metadata.attachments|
    modifies api
    ensures var s := SubmitEffect(api.server, |old(api.log)|, cfg, docTypes, tags, metadata, contents);
      api.log == old(api.log) + s.calls && failure == s.failure
  {
    ghost var n, log0 := |api.log|, api.log;
    ghost var form := FormEffect(api.server, n, cfg, docTypes, tags, metadata);
    var formData;
    formData, failure := BuildForm(api, cfg, docTypes, tags, metadata);
    if failure.Some? {
      return;
    }
    FormHasNoDocument(api.server, n, cfg, docTypes, tags, metadata);
    ghost var log1 := api.log;
    var rejected := UploadAll(formData, api, metadata.attachments, contents);
    SubmitGrows(api.server, n, cfg, docTypes, tags, metadata, contents, log0, log1, api.log, rejected);
    if rejected.Some? {
      return Some(UploadRejected(rejected.value));
    }
  }

  /** The bookkeeping of `Submit`: the form's effect, then the uploads', is the submission's. */
  lemma {:induction false} SubmitGrows(server: Server, n: nat, cfg: Config, docTypes: seq<Entity>, tags: seq<Entity>, metadata: Metadata,
                    contents: seq<string>, log0: seq<Call>, log1: seq<Call>, log2: seq<Call>, rejected: Option<int>)
    requires |contents| == |metadata.attachments|
    requires var form := FormEffect(server, n, cfg, docTypes, tags, metadata);
      form.failure.None? && log1 == log0 + form.calls
    requires var form := FormEffect(server, n, cfg, docTypes, tags, metadata);
      var up := UploadsEffect(server, n + |form.calls|, form.fields, Parts(metadata.attachments, contents));
      log2 == log1 + up.calls && rejected == up.rejected
    ensures var s := SubmitEffect(server, n, cfg, docTypes, tags, metadata, contents);
      log2 == log0 + s.calls && (if rejected.Some? then Some(UploadRejected(rejected.value)) else None) == s.failure
  {
    var form := FormEffect(server, n, cfg, docTypes, tags, metadata);
    var up := UploadsEffect(server, n + |form.calls|, form.fields, Parts(metadata.attachments, contents));
    assert (log0 + form.calls) + up.calls == log0 + (form.calls + up.calls);
  }

  /** The requests one descriptor causes and its report. */
  datatype DocOutcome = DocOutcome(calls: seq<Call>, report: Report)

  /** The rename main.ts:241 requests for a migrated descriptor. */
  function Mark(path: string): Move
  {
    Move(path, path + DoneSuffix)
  }

  /** One iteration of main.ts:188-246 on the live `files`, from the `n`-th request of the run on. */
  function DocEffect(server: Server, n: nat, files: set<string>, descriptors: map<string, Metadata>,
                     cfg: Config, docTypes: seq<Entity>, tags: seq<Entity>, path: string): DocOutcome
  {
    match Read(files, descriptors, path) {
      case None => DocOutcome([], Stopped(path, DescriptorUnreadable(path)))
      case Some(metadata) =>
        if |metadata.attachments| == 0 then DocOutcome([], Skipped(path))
        else
          var paths := AttachmentPaths(Dirname(path), metadata.attachments);
          match FirstMissing(files, paths) {
            case Some(k) => DocOutcome([], Stopped(path, AttachmentMissing(paths[k])))
            case None =>
              var s := SubmitEffect(server, n, cfg, docTypes, tags, metadata, paths);
              DocOutcome(s.calls, if s.failure.Some? then Stopped(path, s.failure.value) else Migrated(path, |paths|))
          }
    }
  }

  /** One iteration of main.ts:188-246: the descriptor is renamed exactly when it is reported migrated. */
  method MigrateDocument(fs: FileSystem, api: Api, cfg: Config, docTypes: seq<Entity>, tags: seq<Entity>, metadataPath: string)
    returns (report: Report)
    modifies fs, api
    ensures var d := DocEffect(api.server, |old(api.log)|, old(fs.files), fs.descriptors, cfg, docTypes, tags, metadataPath);
      api.log == old(api.log) + d.calls && report == d.report &&
      fs.files == if report.Migrated? then Moved(old(fs.files), Mark(metadataPath)) else old(fs.files)
  {
    var read := fs.ReadDescriptor(metadataPath);
    if read.None? {
      return Stopped(metadataPath, DescriptorUnreadable(metadataPath));
    }
    var metadata := read.value;
    if |metadata.attachments| == 0 {
      return Skipped(metadataPath);
    }
    var attachmentPaths := GetAttachmentPaths(metadata, metadataPath);
    var attachmentFiles := GetAttachmentFiles(fs.files, attachmentPaths);
    if attachmentFiles.Err? {
      return Stopped(metadataPath, attachmentFiles.error);
    }
    var failure := Submit(api, cfg, docTypes, tags, metadata, attachmentFiles.value);
    if failure.Some? {
      return Stopped(metadataPath, failure.value);
    }
    fs.MoveNow(metadataPath, metadataPath + DoneSuffix);
    report := Migrated(metadataPath, |attachmentFiles.value|);
  }

  /**
   * The report names its descriptor; a descriptor is skipped, with no
   * request, exactly when it reads as a document without attachments.
   */
  lemma {:induction false} DocSkipped(server: Server, n: nat, files: set<string>, descriptors: map<string, Metadata>,
                   cfg: Config, docTypes: seq<Entity>, tags: seq<Entity>, path: string)
    ensures var d := DocEffect(server, n, files, descriptors, cfg, docTypes, tags, path);
      d.report.path == path &&
      (d.report.Skipped? <==> path in files && path in descriptors && |descriptors[path].attachments| == 0) &&
      (d.report.Skipped? ==> d.calls == [])
  {
  }

  /** The branch of `DocEffect` a migrated descriptor took. */
  lemma {:induction false} MigratedBranch(server: Server, n: nat, files: set<string>, descriptors: map<string, Metadata>,
                       cfg: Config, docTypes: seq<Entity>, tags: seq<Entity>, path: string)
    requires DocEffect(server, n, files, descriptors, cfg, docTypes, tags, path).report.Migrated?
    ensures path in files && path in descriptors
    ensures var d := DocEffect(server, n, files, descriptors, cfg, docTypes, tags, path);
      var metadata := descriptors[path];
      var paths := AttachmentPaths(Dirname(path), metadata.attachments);
      var form := FormEffect(server, n, cfg, docTypes, tags, metadata);
      var u := UploadsEffect(server, n + |form.calls|, form.fields, Parts(metadata.attachments, paths));
      |metadata.attachments| > 0 && d.report.uploads == |metadata.attachments| &&
      FirstMissing(files, paths).None? && form.failure.None? && u.rejected.None? && d.calls == form.calls + u.calls
  {
    DocEffectBranches(server, n, files, descriptors, cfg, docTypes, tags, path);
    var metadata := descriptors[path];
    SubmitPastForm(server, n, cfg, docTypes, tags, metadata, AttachmentPaths(Dirname(path), metadata.attachments));
  }

  /** A stopped descriptor whose failure is a rejected upload took the upload branch. */
  lemma {:induction false} RejectedBranch(server: Server, n: nat, files: set<string>, descriptors: map<string, Metadata>,
                       cfg: Config, docTypes: seq<Entity>, tags: seq<Entity>, path: string)
    requires var r := DocEffect(server, n, files, descriptors, cfg, docTypes, tags, path).report;
      r.Stopped? && r.failure.UploadRejected?
    ensures path in files && path in descriptors
    ensures var d := DocEffect(server, n, files, descriptors, cfg, docTypes, tags, path);
      var metadata := descriptors[path];
      var paths := AttachmentPaths(Dirname(path), metadata.attachments);
      var form := FormEffect(server, n, cfg, docTypes, tags, metadata);
      var u := UploadsEffect(server, n + |form.calls|, form.fields, Parts(metadata.attachments, paths));
      form.failure.None? && u.rejected == Some(d.report.failure.status) && d.calls == form.calls + u.calls
  {
    DocEffectBranches(server, n, files, descriptors, cfg, docTypes, tags, path);
    var metadata := descriptors[path];
    SubmitPastForm(server, n, cfg, docTypes, tags, metadata, AttachmentPaths(Dirname(path), metadata.attachments));
  }

  /**
   * `DocEffect` sends requests only once the descriptor was read, has
   * attachments and all of them exist; its outcome is then the submission's.
   */
  lemma {:induction false} DocEffectBranches(server: Server, n: nat, files: set<string>, descriptors: map<string, Metadata>,
                          cfg: Config, docTypes: seq<Entity>, tags: seq<Entity>, path: string)
    ensures var d := DocEffect(server, n, files, descriptors, cfg, docTypes, tags, path);
      (d.report.Migrated? || (d.report.Stopped? && d.report.failure.UploadRejected?)) ==>
        path in files && path in descriptors && |descriptors[path].attachments| > 0 &&
        var metadata := descriptors[path];
        var paths := AttachmentPaths(Dirname(path), metadata.attachments);
        var s := SubmitEffect(server, n, cfg, docTypes, tags, metadata, paths);
        FirstMissing(files, paths).None? &&
        d == DocOutcome(s.calls, if s.failure.Some? then Stopped(path, s.failure.value) else Migrated(path, |paths|))
  {
  }

  /** A submission that failed by no more than a rejected upload got past its form. */
  lemma {:induction false} SubmitPastForm(server: Server, n: nat, cfg: Config, docTypes: seq<Entity>, tags: seq<Entity>,
                       metadata: Metadata, contents: seq<string>)
    requires |contents| == |metadata.attachments|
    ensures var s := SubmitEffect(server, n, cfg, docTypes, tags, metadata, contents);
      var form := FormEffect(server, n, cfg, docTypes, tags, metadata);
      var u := UploadsEffect(server, n + |form.calls|, form.fields, Parts(metadata.attachments, contents));
      (s.failure.None? || s.failure.value.UploadRejected?) ==>
        form.failure.None? && s.calls == form.calls + u.calls &&
        s.failure == if u.rejected.Some? then Some(UploadRejected(u.rejected.value)) else None
  {
    FormFailureKind(server, n, cfg, docTypes, tags, metadata);
  }

  /** Building the form fails only by a refused creation or an empty search result, never by an upload. */
  lemma {:induction false} FormFailureKind(server: Server, n: nat, cfg: Config, docTypes: seq<Entity>, tags: seq<Entity>, metadata: Metadata)
    ensures var f := FormEffect(server, n, cfg, docTypes, tags, metadata).failure;
      f.Some? ==> f.value.CreateFailed? || f.value.NoSearchResult?
  {
    var corr := CorrespondentEffect(server, n, metadata.corrOrg);
    TagsFailureKind(server, n + |corr.calls|, cfg, docTypes, tags, metadata.tags);
  }

  lemma {:induction false} TagsFailureKind(server: Server, n: nat, cfg: Config, docTypes: seq<Entity>, tags: seq<Entity>, ts: seq<Tag>)
    ensures var f := TagsEffect(server, n, cfg, docTypes, tags, ts).failure;
      f.Some? ==> f.value.CreateFailed?
  {
    if ts != [] {
      TagsFailureKind(server, n, cfg, docTypes, tags, ts[..|ts| - 1]);
    }
  }

  /**
   * A descriptor is reported migrated only when its document has
   * attachments, all of them exist, and then one upload per attachment is
   * made in attachment order, each accepted, each posting the same document
   * fields followed by exactly one `document` part, that attachment's.
   */
  lemma {:induction false} DocMigrated(server: Server, n: nat, files: set<string>, descriptors: map<string, Metadata>,
                    cfg: Config, docTypes: seq<Entity>, tags: seq<Entity>, path: string)
    requires DocEffect(server, n, files, descriptors, cfg, docTypes, tags, path).report.Migrated?
    ensures path in files && path in descriptors
    ensures var d := DocEffect(server, n, files, descriptors, cfg, docTypes, tags, path);
      var metadata := descriptors[path];
      var atts := metadata.attachments;
      var paths := AttachmentPaths(Dirname(path), atts);
      var form := FormEffect(server, n, cfg, docTypes, tags, metadata);
      |atts| > 0 && d.report.uploads == |atts| &&
      (forall i :: 0 <= i < |atts| ==> paths[i] in files) &&
      form.failure.None? && NoDocument(form.fields) &&
      AcceptedUploads(server, n, form.fields, form.calls, d.calls, atts, paths)
  {
    DocEffectBranches(server, n, files, descriptors, cfg, docTypes, tags, path);
    var metadata := descriptors[path];
    var paths := AttachmentPaths(Dirname(path), metadata.attachments);
    SubmitPastForm(server, n, cfg, docTypes, tags, metadata, paths);
    var form := FormEffect(server, n, cfg, docTypes, tags, metadata);
    FormHasNoDocument(server, n, cfg, docTypes, tags, metadata);
    var d := DocEffect(server, n, files, descriptors, cfg, docTypes, tags, path);
    AcceptedAfterForm(server, n, form.fields, form.calls, d.calls, metadata.attachments, paths);
  }

  /**
   * `calls` are the form's requests `formCalls` followed by one upload per
   * attachment, in order, each posting `base` plus exactly one `document`
   * part, that attachment's, and each accepted by the server.
   */
  ghost predicate AcceptedUploads(server: Server, n: nat, base: seq<Field>, formCalls: seq<Call>, calls: seq<Call>,
                                  atts: seq<Attachment>, paths: seq<string>)
    requires |paths| == |atts|
  {
    |calls| == |formCalls| + |atts| && calls[..|formCalls|] == formCalls &&
    forall i :: 0 <= i < |atts| ==>
      calls[|formCalls| + i] == PostDocument(base + [DocumentPart(atts[i], paths[i])]) &&
      CountField(base + [DocumentPart(atts[i], paths[i])], DocumentField) == 1 &&
      server.respond(n + |formCalls| + i, calls[|formCalls| + i]).ok
  }

  /** The requests of a document whose form was built and whose uploads were all accepted. */
  lemma {:induction false} AcceptedAfterForm(server: Server, n: nat, base: seq<Field>, formCalls: seq<Call>, calls: seq<Call>,
                          atts: seq<Attachment>, paths: seq<string>)
    requires |paths| == |atts| && NoDocument(base)
    requires UploadsEffect(server, n + |formCalls|, base, Parts(atts, paths)).rejected.None?
    requires calls == formCalls + UploadsEffect(server, n + |formCalls|, base, Parts(atts, paths)).calls
    ensures AcceptedUploads(server, n, base, formCalls, calls, atts, paths)
  {
    var parts := Parts(atts, paths);
    var m := n + |formCalls|;
    UploadsAccepted(server, m, base, parts);
    var u := UploadsEffect(server, m, base, parts);
    AcceptedShifted(server, n, m, base, parts, formCalls, u.calls, calls, atts, paths);
  }

  /** The accepted uploads, seen after the requests that built the form. */
  lemma {:induction false} AcceptedShifted(server: Server, n: nat, m: nat, base: seq<Field>, parts: seq<Field>,
                        formCalls: seq<Call>, ups: seq<Call>, calls: seq<Call>,
                        atts: seq<Attachment>, paths: seq<string>)
    requires |paths| == |atts| && |parts| == |atts|
    requires forall i :: 0 <= i < |atts| ==> parts[i] == DocumentPart(atts[i], paths[i]) && parts[i].name == DocumentField
    requires calls == formCalls + ups && |ups| == |parts| && m == n + |formCalls|
    requires forall i :: 0 <= i < |parts| ==>
      ups[i] == PostDocument(base + [parts[i]]) && CountField(base + [parts[i]], DocumentField) == 1 &&
      server.respond(m + i, ups[i]).ok
    ensures AcceptedUploads(server, n, base, formCalls, calls, atts, paths)
  {
    forall i | 0 <= i < |atts|
      ensures calls[|formCalls| + i] == PostDocument(base + [DocumentPart(atts[i], paths[i])])
      ensures CountField(base + [DocumentPart(atts[i], paths[i])], DocumentField) == 1
      ensures server.respond(n + |formCalls| + i, calls[|formCalls| + i]).ok
    {
      assert calls[|formCalls| + i] == ups[i];
    }
    assert calls[..|formCalls|] == formCalls;
  }

  /** A rejected upload stops the document: it is not renamed, and the rejected upload is its last request. */
  lemma {:induction false} DocRejected(server: Server, n: nat, files: set<string>, descriptors: map<string, Metadata>,
                    cfg: Config, docTypes: seq<Entity>, tags: seq<Entity>, path: string)
    requires var r := DocEffect(server, n, files, descriptors, cfg, docTypes, tags, path).report;
      r.Stopped? && r.failure.UploadRejected?
    ensures var d := DocEffect(server, n, files, descriptors, cfg, docTypes, tags, path);
      RejectedLast(server, n, d.calls, d.report.failure.status)
  {
    RejectedBranch(server, n, files, descriptors, cfg, docTypes, tags, path);
    var metadata := descriptors[path];
    var paths := AttachmentPaths(Dirname(path), metadata.attachments);
    var form := FormEffect(server, n, cfg, docTypes, tags, metadata);
    var d := DocEffect(server, n, files, descriptors, cfg, docTypes, tags, path);
    RejectedAfterForm(server, n, form.fields, form.calls, d.calls, Parts(metadata.attachments, paths), d.report.failure.status);
  }

  /** The last of `calls` is an upload the server refused with `status`. */
  ghost predicate RejectedLast(server: Server, n: nat, calls: seq<Call>, status: int)
  {
    0 < |calls| && calls[|calls| - 1].PostDocument? &&
    !server.respond(n + |calls| - 1, calls[|calls| - 1]).ok &&
    status == server.respond(n + |calls| - 1, calls[|calls| - 1]).status
  }

  /** The requests of a document whose form was built and whose `status`-rejected upload ended it. */
  lemma {:induction false} RejectedAfterForm(server: Server, n: nat, base: seq<Field>, formCalls: seq<Call>, calls: seq<Call>,
                          parts: seq<Field>, status: int)
    requires UploadsEffect(server, n + |formCalls|, base, parts).rejected == Some(status)
    requires calls == formCalls + UploadsEffect(server, n + |formCalls|, base, parts).calls
    ensures RejectedLast(server, n, calls, status)
  {
    var u := UploadsEffect(server, n + |formCalls|, base, parts);
    UploadsRejected(server, n + |formCalls|, base, parts);
    UploadsArePosts(server, n + |formCalls|, base, parts);
    assert calls[|calls| - 1] == u.calls[|u.calls| - 1];
    assert u.calls[|u.calls| - 1] in u.calls;
  }

  lemma {:induction false} UploadsArePosts(server: Server, n: nat, base: seq<Field>, parts: seq<Field>)
    ensures forall c :: c in UploadsEffect(server, n, base, parts).calls ==> c.PostDocument?
  {
    if parts != [] {
      UploadsArePosts(server, n, base, parts[..|parts| - 1]);
    }
  }
}
