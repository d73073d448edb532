# docspell2paperless, modelled in Dafny

docspell2paperless moves a Docspell export into Paperless-ngx. It is three Deno scripts:

- `main.ts` walks the input folder for `metadata.json` descriptors. For each descriptor in walk order, it:
  - reads the document's attachment files from the `files` directory beside it;
  - builds a multipart form with the document's title, date, storage path, correspondent (looked up on the server and created when missing), document type and tags (routed by category, resolved against lists fetched once, and created when missing);
  - posts the form once per attachment, with that attachment as the one `document` part.

  When every upload is accepted, the descriptor is renamed to `metadata.json.done`. The first failure ends the whole run.
- `count.ts` counts the pending (`metadata.json`) and migrated (`metadata.json.done`) descriptors, and prints both counts and their total.
- `undo.ts` renames every `metadata.json.done` back by removing the first ".done" from its path. It reports each rename and each failure, and carries on after a failure.

The model has these parts:

- **Directory tree.** A snapshot is a `DirTree.Node` tree: files, directories and symbolic links, which no walk enters. The walk order is `DirTree.Listing`.
- **Live filesystem.** The class `Disk.FileSystem` holds the set of existing file paths, which renames change. It also holds the parsed content of each descriptor, and the paths the operating system refuses to rename.
- **Paperless-ngx server.** `Paperless.Server` is an oracle that answers the n-th request of a run. The HTTP client `Paperless.Api` logs every request it sends.
- **Form.** `Paperless.FormData` is the multipart form, a sequence of fields that is appended to and deleted from in place.

Each imperative walk or loop of the scripts is a method with loop invariants. Each is proved equal to a function of its inputs: `Walker.MetadataPaths`, `Count.PendingCount`/`DoneCount`, `Undo.Undone`/`UndoLog`, `References.TagsEffect`, `Documents.DocEffect` and `Migration.RunEffect`.

The properties of the scripts are lemmas about those functions:

- what one document's migration sends and when its descriptor is renamed;
- that a run stops at its first failure;
- that a rerun resumes with exactly the descriptors not yet migrated;
- that `count.ts` sees every migrated descriptor move from one count to the other;
- that `undo.ts` restores the folder after one run over a fresh export, under a precondition on directory names.

## Model

| member | source | states |
|---|---|---|
| Strings.FirstIndex | main.ts:53 | `indexOf`: None exactly when the pattern does not occur; otherwise an occurrence with none before it |
| Strings.ReplaceFirstAt | undo.ts:11 | `replace` with a string pattern cuts exactly the first occurrence, keeping what precedes and follows it |
| Strings.ReplaceFirstAbsent | main.ts:53 | `replace` leaves a string without the pattern unchanged |
| Strings.ReplaceFirstAfter | undo.ts:11 | a pattern placed after pattern-free text is the one `replace` removes |
| Strings.JoinSplit | main.ts:13 | the `${dir}/${name}` join is undone by taking the last component and the `dirname` |
| Strings.BasenameAppend | main.ts:241 | appending ".done" to a path extends only its last component |
| DirTree.DoneNameIsSuffixed | main.ts:241 | the migrated name is the pending name with the ".done" suffix |
| DirTree.ListingComplete | main.ts:11-20 | the recursive walk reaches exactly the regular files at any depth, following directories and nothing else |
| DirTree.ListingDistinct | main.ts:13 | in a tree with unique sibling names every walked path is built once |
| DirTree.PathsNamedExactly | main.ts:16 | selecting by name keeps exactly the paths of files with that name |
| DirTree.CountIsLength | count.ts:14-15 | counting the files with a name gives the number of their paths |
| DirTree.CountsDisjoint | count.ts:14-17 | no file is counted under two names, so both counts together do not exceed the files |
| DirTree.CountIsCardinality | count.ts:14-17 | a count by name is the size of the set of those files' paths |
| DirTree.NamedByBasename | main.ts:16 | in a real tree a file's name is the last component of its path |
| Walker.PathCollector.constructor | main.ts:8 | the shared result array starts empty |
| Walker.PathCollector.WalkDir | main.ts:11-20 | the walk appends to the shared array the paths of the files named `metadata.json` under the directory, in walk order |
| Walker.PathCollector.Visit | main.ts:12-19 | one entry: a directory is walked, a `metadata.json` file is pushed, anything else is ignored |
| Walker.GetMetadataPaths | main.ts:7-24 | the result is exactly the `/`-joined paths of the files named `metadata.json` at any depth, in walk order; an empty folder gives none |
| Walker.WalkerPathShape | main.ts:16-17 | every returned path ends in `metadata.json`, never `metadata.json.done`, and is a live file |
| Walker.WalkerNoDuplicates | main.ts:11-20 | a walk of a real tree returns no path twice |
| Walker.WalkerFinds | main.ts:16 | a path is returned iff it is a live file whose last component is `metadata.json` |
| Count.Counter.constructor | count.ts:5-6 | both counters start at zero |
| Count.Counter.WalkDir | count.ts:8-21 | the walk adds to each counter the number of files under the directory with exactly its name |
| Count.Counter.Visit | count.ts:9-20 | one entry: a directory is walked; a file raises at most one counter, chosen by its exact name |
| Count.CountMetadataFiles | count.ts:4-25 | `json` and `jsonDone` count exactly the `metadata.json` and `metadata.json.done` files; `json` equals the number of paths `getMetadataPaths` returns; their sum is at most the number of files; an empty folder gives 0 and 0 |
| Count.CountOfPaths | count.ts:14-17 | a count by name equals the number of live paths whose last component is that name |
| Count.RenameShiftsCounts | count.ts:35 | renaming one `metadata.json` to `.done` lowers `json` by one, raises `jsonDone` by one unless that name existed, and keeps the printed total |
| Count.MovedByName | main.ts:241 | after one rename the pending set loses one path and the done set gains one unless it was already there |
| Disk.FileSystem.constructor | main.ts:189 | the filesystem holds the given files, descriptor contents and refused paths |
| Disk.FileSystem.Rename | undo.ts:13 | an awaited rename succeeds iff its source exists and is not refused; the source then goes and the target appears, otherwise nothing changes |
| Disk.FileSystem.MoveNow | main.ts:241 | the unawaited rename takes effect at once |
| Disk.Moved | main.ts:241 | after a rename the target exists, the source is gone, and every other path is unchanged |
| Disk.AttemptAll | undo.ts:12-17 | attempting renames in order records one outcome per attempt |
| Disk.AttemptAllAppend | undo.ts:5-19 | attempting two batches in turn is attempting their concatenation |
| Disk.AfterMovesAsSets | main.ts:241 | renames that keep sources and targets apart remove the sources and add the targets |
| Disk.AttemptAllAsSets | undo.ts:12-17 | existing, unrefused renames that keep sources and targets apart do the same, in any order |
| Disk.AttemptAllSucceeds | undo.ts:13-14 | under those conditions every attempt succeeds |
| Disk.AttemptAllKeeps | undo.ts:9 | a path that no rename has as its source stays in place |
| Attachments.FileNamePlain | main.ts:53 | an attachment name without ".converted" is used as it is |
| Attachments.FileNameConverted | main.ts:53 | a converted name loses its first ".converted" and nothing else |
| Attachments.GetAttachmentPaths | main.ts:49-57 | one path per attachment, in order, each `dirname(descriptor)/files/` plus the stripped name |
| Attachments.AttachmentBesideDescriptor | main.ts:50-53 | for a walked descriptor the attachment lies in the `files` directory beside it, under its stripped name |
| Attachments.FirstMissing | main.ts:61-62 | None iff every path exists; otherwise the first missing one |
| Attachments.GetAttachmentFiles | main.ts:59-66 | reading succeeds iff every file exists, yielding them in order; otherwise it fails on the first missing one |
| Paperless.Api.constructor | main.ts:174 | a client with an empty log for the given server |
| Paperless.Api.Find | main.ts:70-75 | the search request is logged and answered by the server at its position |
| Paperless.Api.Send | main.ts:225-231 | a POST is logged and answered by the server at its position |
| Paperless.Without | main.ts:237 | `delete` keeps exactly the fields with another name |
| Paperless.WithoutAbsent | main.ts:237 | deleting a name that no field has changes nothing |
| Paperless.AppendThenDelete | main.ts:223-237 | appending a `document` part and deleting it restores the form |
| Paperless.AppendedOnce | main.ts:223 | a form without a part holds exactly one after one append |
| Paperless.FormData.constructor | main.ts:203 | a new form is empty |
| Paperless.FormData.Append | main.ts:223 | `append` adds the field at the end |
| Paperless.FormData.Delete | main.ts:237 | `delete` removes every field with that name and keeps the others in order |
| References.FindByName | main.ts:148 | `find` returns None iff no entity has that exact name; otherwise the first one that does |
| References.RouteOfCases | main.ts:147-163 | a tag goes to `document_type` iff its category is the document-type name, which is tested first; to `tags` iff it is only the tag-category name; otherwise it is dropped |
| References.TagEffectShape | main.ts:146-163 | without a failure a tag appends one field if routed and none if dropped; a cached id is appended with no request, and an uncached one sends one create and appends the id of the server's reply |
| References.TagsEffectShape | main.ts:145-165 | without a failure `addTags` appends one field per routed tag, in order, under the routed name, carrying the first cached id or else the id the server returned for that tag's create request at its position in the run; it sends exactly one create per routed uncached occurrence |
| References.TagsFieldNames | main.ts:150-161 | every appended field is `document_type` or `tags` |
| References.RepeatedMissCreatedTwice | main.ts:184-185 | the lists are never updated, so an uncached tag appearing twice is created twice |
| References.TagsEffectStops | main.ts:152-161 | after a failed creation, which throws, the remaining tags do nothing |
| References.CorrespondentDecision | main.ts:76-97 | a correspondent is created iff the search counts none; its id is then the created one's, and a refused creation fails; otherwise the id is the first result's |
| References.GetCorrespondentId | main.ts:69-98 | the lookup sends exactly the decided requests and returns the decided id or failure |
| References.ResolveInto | main.ts:148-162 | a cache hit appends its id with no request; a miss sends one create and appends the new id or fails |
| References.AddTag | main.ts:146-163 | one loop step appends and sends exactly what the tag's effect says |
| References.AddTags | main.ts:145-165 | the loop appends, sends and fails exactly as `TagsEffect` |
| Documents.Parts | main.ts:220-223 | one part per attachment, in order: part i is named `document` and carries attachment i under its stripped name with its contents |
| Documents.UploadsStop | main.ts:233-234 | after a rejected upload the later attachments are not posted |
| Documents.UploadAll | main.ts:218-238 | the upload loop posts and stops exactly as `UploadsEffect`; after full success the form is as it was, and after a rejection it holds one more field and is what the last request posted |
| Documents.UploadsAccepted | main.ts:220-238 | with every upload accepted there is one post per attachment, in order, each with the shared fields and exactly one `document` part |
| Documents.UploadsRejected | main.ts:233-245 | a rejection is the last request, every earlier upload was accepted, and its status is the one reported |
| Documents.UploadsOk | main.ts:220-238 | without a rejection every upload was accepted |
| Documents.FormHasNoDocument | main.ts:203-215 | the shared fields hold no `document` part |
| Documents.AddCorrespondent | main.ts:209-211 | a correspondent field is appended iff the document has one and the lookup succeeds |
| Documents.BuildForm | main.ts:203-215 | the form holds title, date and storage path, then the correspondent, then the tags; it fails exactly as `FormEffect` |
| Documents.Submit | main.ts:203-238 | building and uploading sends and fails exactly as `SubmitEffect` |
| Documents.MigrateDocument | main.ts:188-246 | one iteration sends exactly `DocEffect`'s requests, and the descriptor is renamed to `.done` iff it is reported migrated |
| Documents.DocSkipped | main.ts:192-195 | a descriptor is skipped, with no request and no rename, iff it reads as a document without attachments |
| Documents.MigratedBranch | main.ts:198-241 | a migrated descriptor existed and parsed, had attachments that all existed, and its form and uploads went through |
| Documents.RejectedBranch | main.ts:233-245 | a rejected upload happened after the form was built |
| Documents.FormFailureKind | main.ts:90-91 | building the form fails only by a refused creation or an empty search result |
| Documents.TagsFailureKind | main.ts:152-161 | `addTags` fails only by a refused creation |
| Documents.DocMigrated | main.ts:218-241 | a descriptor is migrated only after exactly one accepted upload per attachment, in order, each with the same fields plus exactly one `document` part, that attachment's |
| Documents.AcceptedAfterForm | main.ts:220-238 | after the form's requests come exactly the accepted uploads, one per attachment |
| Documents.DocRejected | main.ts:233-245 | a rejected upload is the document's last request, and the run reports its status |
| Documents.RejectedAfterForm | main.ts:233-234 | the last request is the refused upload |
| Documents.UploadsArePosts | main.ts:225-231 | every upload request is a document post |
| Migration.DocStepNamesPath | main.ts:188-246 | every iteration reports the descriptor it visited |
| Migration.RunEffect | main.ts:188-247 | a run reports at most one result per walked descriptor |
| Migration.RunHalted | main.ts:243-245 | after the `break` the remaining descriptors send nothing and change nothing |
| Migration.Migrate | main.ts:188-247 | the loop's requests, files and reports are exactly `RunEffect`'s |
| Migration.MigrateNext | main.ts:189-246 | one iteration grows the run by that descriptor |
| Migration.RunGrows | main.ts:188-247 | the state after one iteration is the run's next state |
| Migration.RunMigration | main.ts:180-247 | the script migrates the descriptors the walk finds, exactly as `RunEffect` |
| Migration.RunShape | main.ts:188-246 | reports come in walk order; only the last may be a stop; a run that did not reach every descriptor was stopped |
| Migration.RunFiles | main.ts:241 | the files after a run are the start files with the migrated descriptors' renames applied in order |
| Migration.MarksMembers | main.ts:241 | a rename is requested exactly for each migrated report |
| Migration.MarksSets | main.ts:241 | the renamed paths are the migrated descriptors, and the new names are those paths plus ".done" |
| Migration.ReportedPaths | main.ts:188 | every reported path was walked |
| Migration.MarkedName | main.ts:241 | a renamed descriptor is named `metadata.json.done`, never `metadata.json` |
| Migration.RunAsSets | main.ts:241 | each migrated descriptor is renamed exactly once: migrated paths gone, their `.done` names present, all else unchanged |
| Rerun.MigratedWalked | main.ts:16 | a migrated descriptor was a walked, live `metadata.json` |
| Rerun.RunOverAsSets | main.ts:181-247 | after a run over a real tree the migrated descriptors carry the suffix and nothing else moved |
| Rerun.RerunResumes | main.ts:16 | a second run visits exactly the walked descriptors the first did not migrate |
| Rerun.SuffixedCard | main.ts:241 | adding the suffix keeps distinct paths distinct |
| Rerun.NamedAfterRun | count.ts:14-17 | the run's renames take the migrated paths out of the pending set and add their marks to the done set |
| Rerun.RunShiftsCounts | count.ts:33-35 | after a run over a fresh export `json` falls by the number migrated, `jsonDone` equals it, and the total is unchanged |
| Rerun.MigratedMarked | main.ts:241 | migrated paths were `metadata.json` files; their marks are `metadata.json.done`, and cutting the suffix gives them back |
| Rerun.MigrateThenUndo | undo.ts:9-13 | `undo.ts` after one run over a fresh export (no `metadata.json.done` before the run) restores the original files when no walked path holds ".done" and no rename is refused |
| Rerun.MigrateThenCorrectedUndo | undo.ts:9-13 | after one run over a fresh export (no `metadata.json.done` before the run), the corrected undo restores the original files whatever the directory names, when no rename is refused |
| Rerun.UndoneAfterRun | undo.ts:11 | cutting the suffix from the run's marks gives the original files |
| Rerun.DoneAfterRun | main.ts:241 | after a run over a fresh export the done files are exactly the marks |
| Rerun.StemsOfMarks | undo.ts:11 | cutting the suffix from the marks gives the migrated paths |
| Undo.RestoreMoves | undo.ts:10-11 | one rename per found path, to that path with its first ".done" removed |
| Undo.Outcomes | undo.ts:14-16 | one printed line per attempt |
| Undo.OutcomesAt | undo.ts:12-17 | line i names the i-th path; it is a success line iff that rename succeeded, and then names the target |
| Undo.OutcomesAppend | undo.ts:5-19 | the lines of two batches are those of each in turn |
| Undo.Restorer.constructor | undo.ts:3-4 | the walk starts on the live filesystem with nothing printed |
| Undo.Restorer.WalkDir | undo.ts:4-20 | the walk attempts the renames of every `metadata.json.done` in walk order, carries on after a failure, and prints one line per attempt |
| Undo.Restorer.Visit | undo.ts:5-19 | one entry: a directory is walked, a `metadata.json.done` rename is attempted and reported, anything else is ignored |
| Undo.WalkStep | undo.ts:5-19 | one loop step extends both the renames and the lines |
| Undo.Split | undo.ts:5-19 | the attempts and lines of a prefix plus one entry are those of the prefix, then that entry |
| Undo.RenameMetadataFiles | undo.ts:3-23 | the files afterwards and the lines printed are exactly those of the walk over the input folder |
| Undo.DoneSplit | undo.ts:9 | a `metadata.json.done` path is a `metadata.json` path plus ".done" |
| Undo.RestoredPathStrips | undo.ts:11 | when nothing before the suffix holds ".done", `replace` cuts exactly the suffix |
| Undo.UndoSources | undo.ts:9 | the files undo asks to rename are exactly the live `metadata.json.done` files |
| Undo.UndoTargets | undo.ts:11 | each rename goes to its path with the first ".done" removed |
| Undo.UndoKeepsOthers | undo.ts:9 | a file not named `metadata.json.done` stays, whatever fails |
| Undo.UndoAsSets | undo.ts:9-13 | with nothing refused and no ".done" before any suffix, undo renames every migrated descriptor back and touches nothing else |
| Undo.UndoLeavesNoDone | undo.ts:9-13 | after such a walk no `metadata.json.done` is left |
| Undo.UndoTwice | undo.ts:9-11 | a second walk requests no rename |
| Undo.UndoReportsAllRenamed | undo.ts:13-14 | under the same conditions every line is a success line whose target is the path without its suffix |
| Undo.RestoredPathMisplaced | undo.ts:11 | a directory name holding ".done" makes `replace` cut that one instead of the suffix |
| Undo.RestoredPathMisplacedExample | undo.ts:11 | "a.done/metadata.json.done" is renamed to "a/metadata.json.done" |
| Undo.StemUndoesMark | undo.ts:11 | cutting the suffix undoes the rename of main.ts for every path |
| Undo.CorrectedSources | undo.ts:9 | the corrected walk renames the same files as the original |
| Undo.CorrectedUndoAsSets | undo.ts:9-13 | with nothing refused, the corrected walk renames every migrated descriptor back and touches nothing else, whatever the directory names |

## Left out

- HTTP transport, authentication and JSON decoding of replies (main.ts:70-75, 225-231) are not modelled. The server is the oracle `Paperless.Server`, so a change in the server's behaviour is a different choice of oracle.
- The endpoint typo `documents_types/` (main.ts:102) is not modelled separately. A create request for a document type is answered by the oracle, which may refuse it.
- References.Resolve:
  - The `results[0]` read of a create reply (main.ts:118-119, 140-141) is modelled as the reply carrying an id.
  - Against a create endpoint that answers with a single object, that read throws. The model does not represent that.
- References.CorrespondentLookup: the case-insensitive `name__iexact` search (main.ts:70) belongs to the server oracle.
  - A search that counts matches but returns no result fails with `NoSearchResult`. This stands for the `TypeError` of `results[0].id` (main.ts:97).
- The two start-up GET requests (main.ts:184-185) are not modelled as requests. Their results are parameters, and they are not logged.
- Environment configuration and its checks (main.ts:169-178) are not modelled. A run has a `Settings.Config`, and a missing variable ends the script before any model state exists.
- Date conversion (main.ts:207) is not modelled: `created` is the descriptor's date string as given. `new Date(metadata.date).toISOString()` throws a `RangeError` on an invalid date; it is outside the `try`, so it ends the run. The model has no such outcome: an invalid date neither stops the run nor changes the request.
- File contents (main.ts:62, 222) are not modelled: a read file is represented by its path. Descriptor parsing (main.ts:189) is a map from path to parsed content, and a path missing from it fails.
- Disk.FileSystem.MoveNow: the unawaited `Deno.rename` (main.ts:241) is modelled as succeeding at once. Its possible rejection, which the `try` does not catch, is not modelled.
- Async execution and concurrency are not modelled. Each walk reads one snapshot of the whole tree, a `DirTree.Node` sequence taken before the walk starts, while renames act on the live set of paths. main.ts finishes its walk (main.ts:181) before any rename, and count.ts renames nothing, so for them the snapshot is what the scripts read. undo.ts, however, renames while it walks and reads each subdirectory only when it reaches it (undo.ts:5-8). A file that one of its renames moves into a directory walked later is seen there again and renamed again; the model does not capture this. For example, "a.done/metadata.json.done" moved into "a/" as "a/metadata.json.done" is renamed on to "a/metadata.json" when "a" comes later in the walk, while the model stops at "a/metadata.json.done".
- A failing directory read is not modelled. `Deno.readDir` throws, and the script ends, when INPUT_FOLDER is missing or a subdirectory cannot be read (main.ts:12, count.ts:9, undo.ts:5). In undo.ts the `try` (undo.ts:12-17) covers only the rename, so an unreadable directory stops the undo halfway. A `DirTree.Node` tree cannot express an unreadable directory, so `Walker.GetMetadataPaths`, `Count.CountMetadataFiles` and `Undo.RenameMetadataFiles` always complete.
- Symbolic links are not followed. The walks skip them, as the `isDirectory` and `isFile` tests do (main.ts:14-16, count.ts:11-13, undo.ts:7-9). In the `Rerun` lemmas, however, the live files are the snapshot's regular files (`Rerun.Files`), so an attachment that is a symbolic link counts as missing there. `Deno.readFile` (main.ts:62) follows the link and uploads its target. Those lemmas quantify over every outcome of a document, so they still hold, but they do not cover a run whose attachments sit behind links. `Documents` and `Migration` take the live files as a given set and are not limited this way.
- Directories are not part of the live state. A rename into a missing directory is one of the `refused` paths.
- Console progress lines of main.ts and count.ts (main.ts:193, 200, 240-244; count.ts:33-35) are not modelled. The printed total of count.ts is `Count.Total`, and undo's lines are `Undo.Outcome` values without their error text.
- Deno's removal of trailing separators from the result of `dirname` is not modelled. `Strings.Dirname` cuts at the last '/', so it agrees with Deno's `dirname` only when that '/' is not preceded by another '/'. Walked paths contain "//" exactly when INPUT_FOLDER ends in '/' (main.ts:13). For a descriptor directly inside such a folder, `Strings.Dirname("./input//metadata.json")` is "./input/", where Deno gives "./input". The attachment path is then spelled "./input//files/x" instead of "./input/files/x". The operating system reads the same file under both spellings, and the model finds it under the walked spelling. The model does not identify paths that differ only in repeated separators.

## Findings

| source | as written | input that shows it | evidently intended | confidence | as-written member | corrected member |
|---|---|---|---|---|---|---|
| undo.ts:11 | `oldPath.replace(".done", "")` removes the first ".done" anywhere in the path | "a.done/metadata.json.done" is renamed to "a/metadata.json.done" | remove only the ".done" suffix that main.ts:241 added, restoring "a.done/metadata.json" | not executed | Undo.RestoredPathMisplacedExample | Rerun.MigrateThenCorrectedUndo |

For the as-written rule, the round trip `Rerun.MigrateThenUndo` needs a precondition: no walked path holds ".done" before its suffix. `Undo.RestoredPathMisplaced` shows that any path that does hold one is sent elsewhere. The corrected rule is `Undo.CorrectedMoves`, which uses `Undo.Stem`. `Undo.CorrectedUndoAsSets` and `Rerun.MigrateThenCorrectedUndo` prove that it restores the folder after one run over a fresh export, one holding no `metadata.json.done` before the run, whose renames the operating system allows. When migrated descriptors were already present, undo renames those back too, so neither lemma claims the folder of the last run is restored.
