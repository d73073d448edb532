/**
 * The fields of a Docspell export descriptor (interfaces/docspell.ts) that the
 * migration reads. The descriptor is trusted JSON; its other fields carry no
 * logic and are not modelled.
 */
module Docspell {
  import opened Wrappers

  /** `corr_org`: only its name is used. */
  datatype Organisation = Organisation(name: string)

  /** One entry of `attachments`: only its stored file name is used. */
  datatype Attachment = Attachment(name: string)

  /** One entry of `tags`: its name and its category label. */
  datatype Tag = Tag(name: string, category: string)

  /**
   * A parsed `metadata.json`. `date` is the descriptor's date string as
   * given; `corrOrg` is None when `corr_org` is null.
   */
  datatype Metadata = Metadata(
    name: string,
    date: string,
    corrOrg: Option<Organisation>,
    attachments: seq<Attachment>,
    tags: seq<Tag>)
}
