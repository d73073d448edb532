/**
 * The configuration main.ts reads from its environment, and the ways a
 * migration run can end early.
 */
module Settings {
  import opened Paperless

  /**
   * `PAPERLESS_STORAGE_PATH_ID`, `DOCSPELL_DOCUMENT_TYPE_NAME` and
   * `DOCSPELL_CATEGORY_NAME` (main.ts:175-178). The script stops before
   * doing anything when one is unset, so a run always has all three.
   */
  datatype Config = Config(storagePathId: string, documentTypeCategory: string, tagCategory: string)

  /** Why a run stopped: every one of these ends the script (main.ts:91, 115, 137, 189, 199, 234). */
  datatype Failure =
    | DescriptorUnreadable(path: string)
    | AttachmentMissing(path: string)
    | CreateFailed(kind: Kind, statusText: string)
    | NoSearchResult(name: string)
    | UploadRejected(status: int)
}
