/** The attachment records: the JSON document stored in an attachment row's
    `text` column, the record returned to clients, the two ways of building
    the latter, and the validation of the list query. The (de)serialiser of
    the `text` column is not part of this model: it is passed in as `decode`. */
module AttachmentModels {
  import opened Common
  import opened Store

  /** The document stored in an attachment row's `text` column. */
  datatype AttachmentText = AttachmentText(name: string, path: string, size: nat, kind: string, mime: string)

  /** What the attachment endpoints return for one attachment. */
  datatype AttachmentInfo = AttachmentInfo(
    cid: int, created: int, modified: int,
    name: string, path: string, size: nat, kind: string, mime: string)

  /** The part of an info record that comes from the stored document. */
  function TextOf(info: AttachmentInfo): AttachmentText {
    AttachmentText(info.name, info.path, info.size, info.kind, info.mime)
  }

  /** `from_attachment_text`: the document's five fields, the row's three. */
  function FromAttachmentText(at: AttachmentText, cid: int, created: int, modified: int): (info: AttachmentInfo)
    ensures TextOf(info) == at
    ensures info.cid == cid && info.created == created && info.modified == modified
  {
    AttachmentInfo(cid, created, modified, at.name, at.path, at.size, at.kind, at.mime)
  }

  /** Splitting an info record into document and row fields and building it
      again gives the same record. */
  lemma FromAttachmentTextOfInfo(info: AttachmentInfo)
    ensures FromAttachmentText(TextOf(info), info.cid, info.created, info.modified) == info
  {
  }

  /** The serialiser's error (`super::errors::Error`). */
  datatype DecodeError = DecodeError

  /** `from_attachment`: decode the row's `text`, then copy fields across. */
  function FromAttachment(attachment: Content, decode: string -> Option<AttachmentText>): (r: Result<AttachmentInfo, DecodeError>)
    ensures r.Err? <==> decode(attachment.text).None?
    ensures r.Ok? ==> r.value == FromAttachmentText(decode(attachment.text).value, attachment.cid, attachment.created, attachment.modified)
  {
    match decode(attachment.text)
    case None => Err(DecodeError)
    case Some(at) =>
      Ok(AttachmentInfo(attachment.cid, attachment.created, attachment.modified,
                        at.name, at.path, at.size, at.kind, at.mime))
  }

  /** The query string of the attachment list. */
  datatype AttachmentsQuery = AttachmentsQuery(
    page: Option<u32>, pageSize: Option<u32>, orderBy: Option<string>, private: Option<bool>)

  const ORDER_BY_MAX_LENGTH: nat := 13

  /** The validator's verdict: the fields whose constraint fails, in
      declaration order. A query is accepted iff the list is empty. */
  function Violations(q: AttachmentsQuery): (fields: seq<string>)
    ensures "page" in fields <==> q.page == Some(0)
    ensures "page_size" in fields <==> q.pageSize == Some(0)
    ensures "order_by" in fields <==> q.orderBy.Some? && !(1 <= |q.orderBy.value| <= ORDER_BY_MAX_LENGTH)
    ensures forall f :: f in fields ==> f in ["page", "page_size", "order_by"]
  {
    (if q.page.Some? && q.page.value < 1 then ["page"] else [])
    + (if q.pageSize.Some? && q.pageSize.value < 1 then ["page_size"] else [])
    + (if q.orderBy.Some? && !(1 <= |q.orderBy.value| <= ORDER_BY_MAX_LENGTH) then ["order_by"] else [])
  }

  predicate Accepted(q: AttachmentsQuery) {
    Violations(q) == []
  }

  /** `private` carries no constraint. */
  lemma PrivateIsUnconstrained(q: AttachmentsQuery, private: Option<bool>)
    ensures Violations(q.(private := private)) == Violations(q)
  {
  }

  /** After validation and defaulting, page and page size are at least 1,
      so `page - 1` cannot go below zero. */
  lemma AcceptedQueryHasPositivePage(q: AttachmentsQuery)
    requires Accepted(q)
    ensures q.page.GetOr(1) >= 1 && q.pageSize.GetOr(10) >= 1
  {
  }
}
