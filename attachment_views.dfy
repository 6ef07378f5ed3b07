/** The attachment endpoints. Every endpoint except the per-content listing
    sits behind the contributor gate; the caller it admitted is the `caller`
    argument. File I/O, the multipart stream, the clock and the random
    number generator are not part of this model: what they yield enters as
    arguments (`field`, `stored`, `now`, `year`, `month`, `rand`), and so do
    the store's replies to the statements whose SQL lives elsewhere. */
module AttachmentViews {
  import opened Common
  import opened Store
  import opened Extractors
  import opened Paging
  import opened AttachmentModels

  // ---------------------------------------------------------------------
  // Ownership

  /** The handlers' `admin` test: the caller's group is editor or administrator. */
  predicate IsModerator(group: string)
    ensures IsModerator(group) <==> group in AdmittedGroups(Editor)
  {
    group == "editor" || group == "administrator"
  }

  /** The ownership test of the attachment handlers: the caller wrote the
      row, or moderates. */
  predicate MayActOn(user: User, authorId: int)
    ensures MayActOn(user, authorId) <==> user.uid == authorId || Admits(user, Editor)
  {
    ModeratorIsEditorTier(user);
    user.uid == authorId || IsModerator(user.group)
  }

  /** The moderator test is the editor gate. */
  lemma ModeratorIsEditorTier(user: User)
    ensures IsModerator(user.group) <==> Admits(user, Editor)
  {
  }

  // ---------------------------------------------------------------------
  // Listing

  /** Which rows the listing may show. */
  datatype Scope = Unrestricted | AuthoredBy(uid: nat)

  /** The `private` flag widens the listing only for moderators; everyone
      else sees only their own attachments, whatever the flag says. */
  function ListScope(private: Option<bool>, user: User): (s: Scope)
    ensures s == Unrestricted <==> private == Some(true) && Admits(user, Editor)
    ensures s.AuthoredBy? ==> s.uid == user.uid
  {
    ModeratorIsEditorTier(user);
    if private.GetOr(false) && IsModerator(user.group) then Unrestricted else AuthoredBy(user.uid)
  }

  const MYSQL_SCOPE_PREFIX: string := " AND `authorId` = "
  const ANSI_SCOPE_PREFIX: string := " AND \"authorId\" = "

  /** The filter spliced into the count and list statements. */
  function ScopeSql(scope: Scope, mysql: bool): (sql: string)
    ensures sql == "" <==> scope == Unrestricted
  {
    match scope
    case Unrestricted => ""
    case AuthoredBy(uid) => (if mysql then MYSQL_SCOPE_PREFIX else ANSI_SCOPE_PREFIX) + DecimalString(uid)
  }

  /** The only value the filter carries is the uid, as decimal digits that
      read back as that uid; the unrestricted scope adds no filter. */
  lemma ScopeSqlEmbedsOnlyTheUid(scope: Scope, mysql: bool)
    ensures scope == Unrestricted <==> ScopeSql(scope, mysql) == ""
    ensures scope.AuthoredBy? ==>
      var sql := ScopeSql(scope, mysql);
      var prefix := if mysql then MYSQL_SCOPE_PREFIX else ANSI_SCOPE_PREFIX;
      |prefix| < |sql| && sql[..|prefix|] == prefix
      && AllDigits(sql[|prefix|..]) && ParseDecimal(sql[|prefix|..]) == scope.uid
  {
    if scope.AuthoredBy? {
      var prefix := if mysql then MYSQL_SCOPE_PREFIX else ANSI_SCOPE_PREFIX;
      var sql := ScopeSql(scope, mysql);
      assert sql[|prefix|..] == DecimalString(scope.uid);
      assert sql[..|prefix|] == prefix;
      ParseDecimalString(scope.uid);
    }
  }

  const DEFAULT_ATTACHMENT_ORDER: string := "-cid"

  /** The order whitelist; any other key is rejected with the key itself. */
  function AttachmentOrder(key: string): (r: Result<string, FieldError>)
    ensures r.Ok? <==> key in CONTENT_ORDER
    ensures r.Ok? ==> r.value == CONTENT_ORDER[key]
    ensures r.Err? ==> r.error == InvalidParams(key)
  {
    match key
    case "cid" => Ok("cid")
    case "-cid" => Ok("cid DESC")
    case "slug" => Ok("slug")
    case "-slug" => Ok("slug DESC")
    case _ => Err(InvalidParams(key))
  }

  /** Whatever the client sends, the ORDER BY fragment is one of four constants. */
  lemma AttachmentOrderIsWhitelisted(key: string)
    ensures AttachmentOrder(key).Ok? ==> AttachmentOrder(key).value in {"cid", "cid DESC", "slug", "slug DESC"}
  {
  }

  /** An empty query lists the first ten rows, newest first. */
  lemma AttachmentListDefaults()
    ensures PlanList(None, None, None, DEFAULT_ATTACHMENT_ORDER, AttachmentOrder) == Ok(ListPlan(1, 10, 0, "cid DESC"))
  {
  }

  /** The `for … push` loop: every fetched row converted, in order. */
  method ConvertRows(rows: seq<Content>, toInfo: Content -> AttachmentInfo) returns (results: seq<AttachmentInfo>)
    ensures |results| == |rows|
    ensures forall i :: 0 <= i < |rows| ==> results[i] == toInfo(rows[i])
  {
    results := [];
    for i := 0 to |rows|
      invariant |results| == i
      invariant forall k :: 0 <= k < i ==> results[k] == toInfo(rows[k])
    {
      results := results + [toInfo(rows[i])];
    }
  }

  /** `list_attachments`. The count statement is issued first, before the
      order key is looked at; a rejected key returns before the list
      statement is issued. `count` and `fetch` are the store's replies. */
  method ListAttachments(caller: User, q: AttachmentsQuery, mysql: bool,
                         count: string -> int,
                         fetch: Query -> Result<seq<Content>, FieldError>,
                         toInfo: Content -> AttachmentInfo)
    returns (r: Result<Page<AttachmentInfo>, FieldError>, issued: seq<Query>)
    requires Admits(caller, Contributor) && Accepted(q)
    ensures var filter := ScopeSql(ListScope(q.private, caller), mysql);
            var plan := PlanList(q.page, q.pageSize, q.orderBy, DEFAULT_ATTACHMENT_ORDER, AttachmentOrder);
            if plan.Err? then
              r == Err(plan.error) && issued == [CountQuery(filter)]
            else
              var list := PageQuery(filter, plan.value.pageSize, plan.value.offset, plan.value.order);
              && issued == [CountQuery(filter), list]
              && (fetch(list).Err? ==> r == Err(fetch(list).error))
              && (fetch(list).Ok? ==>
                    && r.Ok?
                    && r.value.page == plan.value.page
                    && r.value.pageSize == plan.value.pageSize
                    && r.value.allCount == count(filter)
                    && r.value.count == |r.value.results| == |fetch(list).value|
                    && forall i :: 0 <= i < |r.value.results| ==> r.value.results[i] == toInfo(fetch(list).value[i]))
  {
    var filter := ScopeSql(ListScope(q.private, caller), mysql);
    var allCount := count(filter);
    issued := [CountQuery(filter)];
    var plan := PlanList(q.page, q.pageSize, q.orderBy, DEFAULT_ATTACHMENT_ORDER, AttachmentOrder);
    if plan.Err? {
      r := Err(plan.error);
      return;
    }
    var list := PageQuery(filter, plan.value.pageSize, plan.value.offset, plan.value.order);
    issued := issued + [list];
    var rows := fetch(list);
    if rows.Err? {
      r := Err(rows.error);
      return;
    }
    var results := ConvertRows(rows.value, toInfo);
    r := Ok(Page(plan.value.page, plan.value.pageSize, allCount, |results|, results));
  }

  /** `list_content_attachments_by_slug` (no gate): the store's reply for
      the cid of the content with this slug, as one page holding all of it. */
  method ListContentAttachmentsBySlug(db: Db, slug: string,
                                      fetchByParent: int -> Result<seq<Content>, FieldError>,
                                      toInfo: Content -> AttachmentInfo)
    returns (r: Result<Page<AttachmentInfo>, FieldError>)
    requires db.Valid()
    ensures !HasSlug(db.contents, slug) ==> r == Err(InvalidParams("slug"))
    ensures HasSlug(db.contents, slug) ==>
      var rows := fetchByParent(db.ContentBySlug(slug).value.cid);
      && (rows.Err? ==> r == Err(rows.error))
      && (rows.Ok? ==>
            && r.Ok?
            && r.value.page == 1
            && r.value.pageSize == r.value.allCount == r.value.count == |r.value.results| == |rows.value|
            && forall i :: 0 <= i < |rows.value| ==> r.value.results[i] == toInfo(rows.value[i]))
  {
    var content := db.ContentBySlug(slug);
    if content.None? {
      r := Err(InvalidParams("slug"));
      return;
    }
    var rows := fetchByParent(content.value.cid);
    if rows.Err? {
      r := Err(rows.error);
      return;
    }
    var results := ConvertRows(rows.value, toInfo);
    r := Ok(Page(1, |results|, |results|, |results|, results));
  }

  // ---------------------------------------------------------------------
  // Upload names and paths

  /** The first position of `c` in `s`, as `str::find` gives it. */
  function FirstIndexOf(s: string, c: char): (r: Option<nat>)
    ensures r.Some? ==> r.value < |s| && s[r.value] == c && c !in s[..r.value]
    ensures r.None? <==> c !in s
  {
    if s == [] then None
    else if s[0] == c then Some(0)
    else
      match FirstIndexOf(s[1..], c)
      case None => None
      case Some(i) =>
        assert s[..i + 1] == [s[0]] + s[1..][..i];
        Some(i + 1)
  }

  /** The extension of an uploaded file's name: everything after its first
      dot. The name is a dot-free stem, a dot and the extension. */
  function Extension(fileName: string): (ext: Option<string>)
    ensures ext.None? <==> '.' !in fileName
    ensures ext.Some? ==> |ext.value| < |fileName|
    ensures ext.Some? ==>
      var stem := fileName[..|fileName| - |ext.value| - 1];
      fileName == stem + "." + ext.value && '.' !in stem
  {
    match FirstIndexOf(fileName, '.')
    case None => None
    case Some(dot) =>
      assert fileName == fileName[..dot] + "." + fileName[dot + 1..];
      Some(fileName[dot + 1..])
  }

  /** A dot-free stem joined to an extension gives that extension back,
      later dots and all. */
  lemma ExtensionOfJoin(stem: string, ext: string)
    requires '.' !in stem
    ensures Extension(stem + "." + ext) == Some(ext)
  {
    var s := stem + "." + ext;
    assert s[|stem|] == '.';
    assert s[|stem| + 1..] == ext;
  }

  /** A run of decimal digits has no dot in it. */
  lemma DigitsHaveNoDot(s: string)
    requires AllDigits(s)
    ensures '.' !in s
  {
  }

  const RAND_LOW: nat := 1_000_000_000
  const RAND_HIGH: nat := 9_999_999_999

  /** The name a file is stored under: the random draw in decimal, a dot,
      and the uploaded extension. */
  function StoredName(rand: nat, ext: string): (name: string)
    ensures Extension(name) == Some(ext)
  {
    DigitsHaveNoDot(DecimalString(rand));
    ExtensionOfJoin(DecimalString(rand), ext);
    DecimalString(rand) + "." + ext
  }

  /** The stored name is ten digits, a dot and the extension; reading its
      extension back gives the uploaded extension. */
  lemma StoredNameShape(rand: nat, ext: string)
    requires RAND_LOW <= rand < RAND_HIGH
    ensures |DecimalString(rand)| == 10
    ensures Extension(StoredName(rand, ext)) == Some(ext)
  {
    assert Pow10(9) == 1_000_000_000;
    assert Pow10(10) == 10_000_000_000;
    DecimalStringLength(rand, 9);
    DigitsHaveNoDot(DecimalString(rand));
    ExtensionOfJoin(DecimalString(rand), ext);
  }

  /** Different random draws give different stored names. */
  lemma StoredNamesDiffer(r1: nat, r2: nat, ext: string)
    requires RAND_LOW <= r1 < RAND_HIGH && RAND_LOW <= r2 < RAND_HIGH
    requires StoredName(r1, ext) == StoredName(r2, ext)
    ensures r1 == r2
  {
    StoredNameShape(r1, ext);
    StoredNameShape(r2, ext);
    assert DecimalString(r1) == StoredName(r1, ext)[..10];
    assert DecimalString(r2) == StoredName(r2, ext)[..10];
    DecimalStringInjective(r1, r2);
  }

  /** The upload directory of a year and month, relative to the upload root. */
  function UploadDir(year: nat, month: nat): (dir: string)
    ensures '.' !in dir
  {
    DigitsHaveNoDot(DecimalString(year));
    DigitsHaveNoDot(DecimalString(month));
    assert '.' !in "usr/uploads/";
    "usr/uploads/" + DecimalString(year) + "/" + DecimalString(month)
  }

  /** The path recorded for a stored file: the upload directory and the
      stored name, with a leading slash. */
  function StoredPath(year: nat, month: nat, name: string): (path: string)
    ensures |name| < |path| && path[|path| - |name|..] == name
    ensures Extension(name).Some? ==> Extension(path) == Extension(name)
  {
    var path := "/" + UploadDir(year, month) + "/" + name;
    if Extension(name).Some? then
      var ext := Extension(name).value;
      var stem := name[..|name| - |ext| - 1];
      assert path == ("/" + UploadDir(year, month) + "/" + stem) + "." + ext;
      ExtensionOfJoin("/" + UploadDir(year, month) + "/" + stem, ext);
      path
    else
      path
  }

  /** The recorded path ends with the stored name, and its extension is the
      uploaded extension: no dot comes before the stored name's. */
  lemma StoredPathShape(year: nat, month: nat, rand: nat, ext: string)
    requires RAND_LOW <= rand < RAND_HIGH
    ensures var path := StoredPath(year, month, StoredName(rand, ext));
            var name := StoredName(rand, ext);
            |name| < |path| && path[|path| - |name|..] == name
    ensures Extension(StoredPath(year, month, StoredName(rand, ext))) == Some(ext)
  {
  }

  /** One part of the multipart body, as the stream yields it. */
  datatype UploadField = UploadField(fileName: Option<string>, contentType: Option<string>)

  /** What the handlers read off the part before storing it. */
  datatype Header = Header(fileName: string, mime: string, ext: string)

  /** A missing part, file name or content type, or a file name without a
      dot, each reject the upload. */
  function ReadHeader(field: Option<UploadField>): (h: Option<Header>)
    ensures h.None? <==>
      field.None? || field.value.fileName.None? || field.value.contentType.None? || '.' !in field.value.fileName.value
    ensures h.Some? ==>
      && h.value.fileName == field.value.fileName.value
      && h.value.mime == field.value.contentType.value
      && Extension(h.value.fileName) == Some(h.value.ext)
  {
    match field
    case None => None
    case Some(f) =>
      match f.fileName
      case None => None
      case Some(fileName) =>
        match f.contentType
        case None => None
        case Some(mime) =>
          match Extension(fileName)
          case None => None
          case Some(ext) => Some(Header(fileName, mime, ext))
  }

  /** The document of a stored upload and its serialisation. */
  datatype Upload = Upload(text: AttachmentText, serialized: string)

  /** The upload steps shared by create and modify. `stored` is what
      streaming the part to disk yields (its size, or its error) and
      `encode` the serialiser. */
  function PrepareUpload(field: Option<UploadField>, rand: nat, year: nat, month: nat,
                         stored: Result<nat, FieldError>,
                         encode: AttachmentText -> Option<string>): (r: Result<Upload, FieldError>)
    requires RAND_LOW <= rand < RAND_HIGH
    ensures ReadHeader(field).None? ==> r == Err(InvalidParams("file"))
    ensures ReadHeader(field).Some? && stored.Err? ==> r == Err(stored.error)
    ensures r.Err? && ReadHeader(field).Some? && stored.Ok? ==> r == Err(InvalidParams("file"))
    ensures r.Ok? ==>
      var h := ReadHeader(field).value;
      && stored.Ok?
      && r.value.text.name == h.fileName
      && r.value.text.path == StoredPath(year, month, StoredName(rand, h.ext))
      && r.value.text.size == stored.value
      && r.value.text.kind == h.ext
      && r.value.text.mime == h.mime
      && encode(r.value.text) == Some(r.value.serialized)
    ensures ReadHeader(field).Some? && stored.Ok? ==> (r.Ok? <==> encode(AttachmentText(
      ReadHeader(field).value.fileName, StoredPath(year, month, StoredName(rand, ReadHeader(field).value.ext)),
      stored.value, ReadHeader(field).value.ext, ReadHeader(field).value.mime)).Some?)
  {
    match ReadHeader(field)
    case None => Err(InvalidParams("file"))
    case Some(h) =>
      var name := StoredName(rand, h.ext);
      match stored
      case Err(e) => Err(e)
      case Ok(size) =>
        var text := AttachmentText(h.fileName, StoredPath(year, month, name), size, h.ext, h.mime);
        match encode(text)
        case None => Err(InvalidParams("file"))
        case Some(serialized) => Ok(Upload(text, serialized))
  }

  /** A prepared upload records the client's file name, and a path whose
      extension is the recorded type. */
  lemma PreparedUploadIsConsistent(field: Option<UploadField>, rand: nat, year: nat, month: nat,
                                   stored: Result<nat, FieldError>, encode: AttachmentText -> Option<string>)
    requires RAND_LOW <= rand < RAND_HIGH
    requires PrepareUpload(field, rand, year, month, stored, encode).Ok?
    ensures var text := PrepareUpload(field, rand, year, month, stored, encode).value.text;
            && text.name == field.value.fileName.value
            && Extension(text.name) == Some(text.kind)
            && Extension(text.path) == Some(text.kind)
  {
    StoredPathShape(year, month, rand, ReadHeader(field).value.ext);
  }

  /** The values `create_attachment` binds into its INSERT. */
  datatype AttachmentInsert = AttachmentInsert(title: string, created: int, text: string, authorId: nat)

  /** `create_attachment` up to the INSERT: title is the client's file name,
      the timestamp is `now` cut to `i32`, the author is the caller. */
  function CreateAttachment(caller: User, field: Option<UploadField>, rand: nat, now: int, year: nat, month: nat,
                            stored: Result<nat, FieldError>,
                            encode: AttachmentText -> Option<string>): (r: Result<AttachmentInsert, FieldError>)
    requires Admits(caller, Contributor)
    requires RAND_LOW <= rand < RAND_HIGH
    ensures var upload := PrepareUpload(field, rand, year, month, stored, encode);
            && (upload.Err? ==> r == Err(upload.error))
            && (upload.Ok? ==>
                  && r.Ok?
                  && r.value.title == upload.value.text.name
                  && r.value.text == upload.value.serialized
                  && r.value.authorId == caller.uid
                  && -I32_LIMIT <= r.value.created < I32_LIMIT
                  && AsU32(r.value.created) == AsU32(now))
  {
    match PrepareUpload(field, rand, year, month, stored, encode)
    case Err(e) => Err(e)
    case Ok(upload) => Ok(AttachmentInsert(upload.text.name, AsI32(now), upload.serialized, caller.uid))
  }

  // ---------------------------------------------------------------------
  // Single-attachment handlers

  /** `get_attachment_by_cid`: the attachment with this cid, for its author
      or a moderator. */
  function GetAttachmentByCid(db: Db, caller: User, cid: int, toInfo: Content -> AttachmentInfo): (r: Result<AttachmentInfo, FieldError>)
    reads db
    requires Admits(caller, Contributor)
    ensures cid !in db.contents <==> r == Err(NotFound("cid"))
    ensures cid in db.contents ==>
      if MayActOn(caller, db.contents[cid].authorId) then r == Ok(toInfo(db.contents[cid]))
      else r == Err(FieldError.PermissionDeny)
  {
    match ByCid(db.contents, cid)
    case None => Err(NotFound("cid"))
    case Some(attachment) =>
      if caller.uid != attachment.authorId && !IsModerator(caller.group) then Err(FieldError.PermissionDeny)
      else Ok(toInfo(attachment))
  }

  const DECODE_FAILED: string := "attachment decode error"

  /** `modify_attachment_by_cid`. The row is rewritten (title, modified,
      text) only when every step succeeds; `updateFailure` is the store's
      error for the UPDATE, if it has one. */
  method ModifyAttachmentByCid(db: Db, caller: User, cid: int,
                               decode: string -> Option<AttachmentText>,
                               field: Option<UploadField>, rand: nat, now: int, year: nat, month: nat,
                               stored: Result<nat, FieldError>,
                               encode: AttachmentText -> Option<string>,
                               updateFailure: Option<FieldError>)
    returns (r: Result<(), FieldError>)
    requires db.Valid() && Admits(caller, Contributor)
    requires RAND_LOW <= rand < RAND_HIGH
    modifies db
    ensures db.Valid()
    ensures cid !in old(db.contents) ==> r == Err(NotFound("cid"))
    ensures cid in old(db.contents) && !MayActOn(caller, old(db.contents)[cid].authorId) ==> r == Err(FieldError.PermissionDeny)
    ensures cid in old(db.contents) && MayActOn(caller, old(db.contents)[cid].authorId) && decode(old(db.contents)[cid].text).None?
            ==> r == Err(DatabaseFailed(DECODE_FAILED))
    ensures cid in old(db.contents) && MayActOn(caller, old(db.contents)[cid].authorId) && decode(old(db.contents)[cid].text).Some?
            && PrepareUpload(field, rand, year, month, stored, encode).Err?
            ==> r == Err(PrepareUpload(field, rand, year, month, stored, encode).error)
    ensures cid in old(db.contents) && MayActOn(caller, old(db.contents)[cid].authorId) && decode(old(db.contents)[cid].text).Some?
            && PrepareUpload(field, rand, year, month, stored, encode).Ok? && updateFailure.Some?
            ==> r == Err(updateFailure.value)
    ensures r.Err? ==> unchanged(db)
    ensures r.Ok? <==>
      && cid in old(db.contents)
      && MayActOn(caller, old(db.contents)[cid].authorId)
      && decode(old(db.contents)[cid].text).Some?
      && PrepareUpload(field, rand, year, month, stored, encode).Ok?
      && updateFailure.None?
    ensures r.Ok? ==>
      var upload := PrepareUpload(field, rand, year, month, stored, encode).value;
      var row := old(db.contents)[cid];
      && db.contents == old(db.contents)[cid := row.(title := Some(upload.text.name), modified := AsI32(now), text := upload.serialized)]
      && db.slugIndex == old(db.slugIndex) && db.users == old(db.users)
  {
    var found := ByCid(db.contents, cid);
    if found.None? {
      r := Err(NotFound("cid"));
      return;
    }
    var existing := found.value;
    if caller.uid != existing.authorId && !IsModerator(caller.group) {
      r := Err(FieldError.PermissionDeny);
      return;
    }
    if decode(existing.text).None? {
      r := Err(DatabaseFailed(DECODE_FAILED));
      return;
    }
    var upload := PrepareUpload(field, rand, year, month, stored, encode);
    if upload.Err? {
      r := Err(upload.error);
      return;
    }
    if updateFailure.Some? {
      r := Err(updateFailure.value);
      return;
    }
    db.UpdateContent(existing.(title := Some(upload.value.text.name), modified := AsI32(now), text := upload.value.serialized));
    r := Ok(());
  }

  /** `delete_attachment_by_cid`; a missing row is `InvalidParams`, not
      `NotFound`, here. */
  method DeleteAttachmentByCid(db: Db, caller: User, cid: int,
                               decode: string -> Option<AttachmentText>,
                               deleteFailure: Option<FieldError>)
    returns (r: Result<(), FieldError>)
    requires db.Valid() && Admits(caller, Contributor)
    modifies db
    ensures db.Valid()
    ensures cid !in old(db.contents) ==> r == Err(InvalidParams("cid"))
    ensures cid in old(db.contents) && !MayActOn(caller, old(db.contents)[cid].authorId) ==> r == Err(FieldError.PermissionDeny)
    ensures cid in old(db.contents) && MayActOn(caller, old(db.contents)[cid].authorId) && decode(old(db.contents)[cid].text).None?
            ==> r == Err(DatabaseFailed(DECODE_FAILED))
    ensures cid in old(db.contents) && MayActOn(caller, old(db.contents)[cid].authorId)
            && decode(old(db.contents)[cid].text).Some? && deleteFailure.Some?
            ==> r == Err(deleteFailure.value)
    ensures r.Err? ==> unchanged(db)
    ensures r.Ok? <==>
      cid in old(db.contents) && MayActOn(caller, old(db.contents)[cid].authorId)
      && decode(old(db.contents)[cid].text).Some? && deleteFailure.None?
    ensures r.Ok? ==> db.contents == old(db.contents) - {cid} && db.users == old(db.users)
    ensures r.Ok? ==> forall s :: s in db.slugIndex ==> db.slugIndex[s] != cid
  {
    var found := ByCid(db.contents, cid);
    if found.None? {
      r := Err(InvalidParams("cid"));
      return;
    }
    var attachment := found.value;
    if caller.uid != attachment.authorId && !IsModerator(caller.group) {
      r := Err(FieldError.PermissionDeny);
      return;
    }
    if decode(attachment.text).None? {
      r := Err(DatabaseFailed(DECODE_FAILED));
      return;
    }
    if deleteFailure.Some? {
      r := Err(deleteFailure.value);
      return;
    }
    db.DeleteContent(cid);
    r := Ok(());
  }

  /** `add_attachment_to_content_by_cid`: only the target content's
      ownership is checked, not the attachment's. */
  method AddAttachmentToContent(db: Db, caller: User, slug: string, attachmentCid: int,
                                updateFailure: Option<FieldError>)
    returns (r: Result<(), FieldError>)
    requires db.Valid() && Admits(caller, Contributor)
    modifies db
    ensures db.Valid()
    ensures attachmentCid !in old(db.contents) ==> r == Err(InvalidParams("cid"))
    ensures attachmentCid in old(db.contents) && !HasSlug(old(db.contents), slug) ==> r == Err(InvalidParams("slug"))
    ensures attachmentCid in old(db.contents) && HasSlug(old(db.contents), slug)
            && !MayActOn(caller, BySlug(old(db.contents), slug).value.authorId)
            ==> r == Err(FieldError.PermissionDeny)
    ensures attachmentCid in old(db.contents) && HasSlug(old(db.contents), slug)
            && MayActOn(caller, BySlug(old(db.contents), slug).value.authorId) && updateFailure.Some?
            ==> r == Err(updateFailure.value)
    ensures r.Err? ==> unchanged(db)
    ensures r.Ok? <==>
      && attachmentCid in old(db.contents)
      && HasSlug(old(db.contents), slug)
      && MayActOn(caller, BySlug(old(db.contents), slug).value.authorId)
      && updateFailure.None?
    ensures r.Ok? ==>
      var row := old(db.contents)[attachmentCid];
      && db.contents == old(db.contents)[attachmentCid := row.(parent := BySlug(old(db.contents), slug).value.cid)]
      && db.slugIndex == old(db.slugIndex) && db.users == old(db.users)
  {
    var found := ByCid(db.contents, attachmentCid);
    if found.None? {
      r := Err(InvalidParams("cid"));
      return;
    }
    var attachment := found.value;
    var admin := IsModerator(caller.group);
    var content := db.ContentBySlug(slug);
    if content.None? {
      r := Err(InvalidParams("slug"));
      return;
    }
    if caller.uid != content.value.authorId && !admin {
      r := Err(FieldError.PermissionDeny);
      return;
    }
    if updateFailure.Some? {
      r := Err(updateFailure.value);
      return;
    }
    db.UpdateContent(attachment.(parent := content.value.cid));
    r := Ok(());
  }

  /** `delete_attachment_from_content_by_cid`: both the attachment and the
      content must be the caller's (or the caller moderates); the parent is
      reset to 0 whether or not it was that content. */
  method DeleteAttachmentFromContent(db: Db, caller: User, slug: string, cid: int,
                                     updateFailure: Option<FieldError>)
    returns (r: Result<(), FieldError>)
    requires db.Valid() && Admits(caller, Contributor)
    modifies db
    ensures db.Valid()
    ensures cid !in old(db.contents) ==> r == Err(InvalidParams("cid"))
    ensures cid in old(db.contents) && !MayActOn(caller, old(db.contents)[cid].authorId) ==> r == Err(FieldError.PermissionDeny)
    ensures cid in old(db.contents) && MayActOn(caller, old(db.contents)[cid].authorId) && !HasSlug(old(db.contents), slug)
            ==> r == Err(InvalidParams("slug"))
    ensures cid in old(db.contents) && MayActOn(caller, old(db.contents)[cid].authorId) && HasSlug(old(db.contents), slug)
            && !MayActOn(caller, BySlug(old(db.contents), slug).value.authorId)
            ==> r == Err(FieldError.PermissionDeny)
    ensures cid in old(db.contents) && MayActOn(caller, old(db.contents)[cid].authorId) && HasSlug(old(db.contents), slug)
            && MayActOn(caller, BySlug(old(db.contents), slug).value.authorId) && updateFailure.Some?
            ==> r == Err(updateFailure.value)
    ensures r.Err? ==> unchanged(db)
    ensures r.Ok? <==>
      && cid in old(db.contents)
      && MayActOn(caller, old(db.contents)[cid].authorId)
      && HasSlug(old(db.contents), slug)
      && MayActOn(caller, BySlug(old(db.contents), slug).value.authorId)
      && updateFailure.None?
    ensures r.Ok? ==>
      && db.contents == old(db.contents)[cid := old(db.contents)[cid].(parent := 0)]
      && db.slugIndex == old(db.slugIndex) && db.users == old(db.users)
  {
    var found := ByCid(db.contents, cid);
    if found.None? {
      r := Err(InvalidParams("cid"));
      return;
    }
    var attachment := found.value;
    var admin := IsModerator(caller.group);
    if caller.uid != attachment.authorId && !admin {
      r := Err(FieldError.PermissionDeny);
      return;
    }
    var content := db.ContentBySlug(slug);
    if content.None? {
      r := Err(InvalidParams("slug"));
      return;
    }
    if caller.uid != content.value.authorId && !admin {
      r := Err(FieldError.PermissionDeny);
      return;
    }
    if updateFailure.Some? {
      r := Err(updateFailure.value);
      return;
    }
    db.UpdateContent(attachment.(parent := 0));
    r := Ok(());
  }
}
