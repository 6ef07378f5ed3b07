# ters: authorization and request normalisation, in Dafny

This project models the decision logic of the ters CMS backend: the axum
request handlers for users, posts and attachments, and the extractors that
admit a caller by role. The store is two abstract tables held by a `Db`
class: `contents` maps a `cid` to a content row, and `users` maps a `uid` to
a user row. A `slugIndex` map stands for the unique index on `slug`. Handlers
that write rows they can see are methods that modify the `Db`.
`CreateAttachment` is the exception: the attachment INSERT's columns are
not known, so it is a function that stops at the values bound into it.
The two attachment lists are methods as well, because their source
converts the fetched rows in a loop; they only read. The other handlers
decide something without writing and are functions.

The modules follow the source files:

- `Common` holds `Option`/`Result`, the handler errors (`FieldError`), the
  `u32`/`i32` casts and `format!("{}")` for unsigned numbers.
- `Store` holds the rows, the table invariant and the row-level writes.
- `Extractors` holds the four role gates, from `src/users/extractors.rs`.
- `Paging` holds the list envelope, the offset, the defaults and the order
  whitelists. These are shared by the three list handlers.
- `AttachmentModels` covers `src/attachments/models.rs`.
- `AttachmentViews` covers `src/attachments/views.rs`.
- `UserViews` covers `src/users/views.rs`.
- `PostViews` covers `src/posts/views.rs`.

Several things enter the model as arguments, because their code is not part
of it:

- the credential resolver's answer;
- the clock, the random file name and the multipart part;
- the size returned by streaming a file to disk;
- the `AttachmentText` serialiser and deserialiser, and `AttachmentInfo::from`;
- the password hash and the token signer;
- every store reply, because SQL execution is not modelled, even where the
  statement's text is in a modelled file (the user and post lists,
  `register`, `create_post`, `modify_user_by_id`, the login UPDATE). This
  covers the count queries, the list queries and the verdicts of inserts
  and updates.

The exists checks are computed from the tables (`Db.ContentBySlug`,
`uid in db.users`); a failed exists query is not modelled.

The attachment list and the user list also return the statements they
issue (`Paging.Query`). This shows what runs before a rejection.

Four behaviours of the code that a reader might not expect:

- **Post order keys.** The post list never rejects an order key.
  Unknown keys order by `cid`.
- **Attachment list gate.** The attachment list takes `PMContributor`.
  Taking that gate to be the contributor gate of `src/users/extractors.rs`,
  a subscriber is refused, rather than getting a list scoped to their own
  rows.
- **Count query first.** The attachment and user lists issue their count
  query before they look at the order key.
- **Meta joins.** The meta variants of the post endpoints use inner joins.
  The model does not claim that a post with no category or tag is kept; that
  post's meta row is whatever the store replies.

## Model

| member | source | states |
|---|---|---|
| Extractors.PMSubscriber | src/users/extractors.rs:51-58 | Equals the tier gate with floor Subscriber. It admits exactly the four role names; any other group is `PermissionDeny`. |
| Extractors.PMContributor | src/users/extractors.rs:77-82 | Equals the tier gate with floor Contributor: "contributor", "editor" or "administrator". |
| Extractors.PMEditor | src/users/extractors.rs:101-106 | Equals the tier gate with floor Editor: "editor" or "administrator". |
| Extractors.PMAdministrator | src/users/extractors.rs:125-130 | Equals the tier gate with floor Administrator: "administrator" only. |
| Extractors.ParseGroup | src/users/extractors.rs:53-57 | A recognised group string is the name of the role it parses to. An unrecognised one names no role. |
| Extractors.ParseGroupName | src/users/extractors.rs:53-57 | Every role's name parses back to that role. |
| Extractors.AdmittedGroups | src/users/extractors.rs:54 | A role's name is in a gate's set iff the role is at or above the gate's floor. |
| Extractors.RequireAdmitsExactly | src/users/extractors.rs:53-57 | A gate admits the user unchanged iff the group is in the gate's set. Any other string is `PermissionDeny`. |
| Extractors.RequirePassesResolverThrough | src/users/extractors.rs:51-55 | A resolver failure is returned unchanged before the group is examined. On success the admitted user is exactly the resolved one. |
| Extractors.GatesNest | src/users/extractors.rs:79-81 | Passing a higher gate implies passing every lower gate with the same result, and the admitted sets nest. |
| Extractors.RoleOrderIsTotal | src/users/extractors.rs:54 | The tier order on roles is reflexive, antisymmetric, transitive and total. |
| Common.AsU32 | src/users/views.rs:42 | `as u32` keeps a value already in the u32 range and otherwise agrees with the input modulo 2^32 (also src/users/views.rs:61 and src/posts/views.rs:34). |
| Common.AsI32 | src/attachments/views.rs:115 | `as i32` gives the one value in the i32 range that agrees with the input modulo 2^32. |
| Common.DecimalString | src/users/views.rs:28 | `format!("{}")` of a number yields a non-empty string of digits with no leading zero; it is one character iff the number is below 10. |
| Common.ParseDecimalString | src/users/views.rs:28 | The formatted digits read back as the number. |
| Common.DecimalStringInjective | src/users/views.rs:28 | Different numbers format differently. |
| Common.DecimalStringLength | src/attachments/views.rs:96-97 | A number with k+1 significant digits formats to k+1 characters. |
| Store.IndexedSlugsAreUnique | entity/src/content.rs:13-14 | A slug index that agrees with the table implies that no two rows share a slug. |
| Store.ByCid | src/attachments/views.rs:133 | The lookup by key finds a row iff the key is stored, and that row is the one stored under the key, carrying that cid in a keyed table (also views.rs:153, 224, 280 and 305). |
| Store.Db.UpdateContent | src/attachments/views.rs:208-215 | An UPDATE that keeps a row's key and slug replaces exactly that row, keeps the slug index and the users, and keeps the table valid (also views.rs:296 and 324). |
| Store.Db.InsertContent | src/posts/views.rs:36-54 | An INSERT under a fresh key and an unused slug adds exactly that row, indexes its slug under its cid and keeps the table valid. |
| Store.Db.DeleteContent | src/attachments/views.rs:241 | A DELETE removes exactly that key, drops its slug from the index and keeps the table valid. |
| Store.Db.UpdateUser | src/users/views.rs:205-243 | An UPDATE of a user row replaces exactly that row, leaves the contents alone and keeps the table valid (also users/views.rs:41-45). |
| Store.Db.InsertUser | src/users/views.rs:64-78 | An INSERT under a fresh uid adds exactly that row, leaves the contents alone and keeps the table valid. |
| Store.Db.ContentBySlug | src/attachments/views.rs:249-253 | Returns the one row carrying the slug, stored under its own cid. Returns none iff no row carries the slug. |
| Paging.OffsetAsWritten | src/attachments/views.rs:44 | The u32 offset is the exact offset reduced modulo 2^32. It equals the exact offset while that is below 2^32. |
| Paging.Offset | src/attachments/views.rs:44 | The exact offset is 0 iff page is 1 or page size is 0. Otherwise it is a whole number of pages, page-1 of them. |
| Paging.OffsetAsWrittenWraps | src/attachments/views.rs:44 | The u32 offset of page 65537 with page size 65536 equals that of page 1. The page therefore does not start where page 65536 ends. |
| Paging.OffsetTilesPages | src/attachments/views.rs:44 | Page 1 starts at row 0, and each page starts where the previous one ends. |
| Paging.OffsetFitsU64 | src/attachments/views.rs:44 | For u32 page and page size the exact offset fits in 64 bits. |
| Paging.PlanList | src/attachments/views.rs:40-51 | Defaults are page 1, page size 10 and the resource's default key. The offset is the exact `(page-1)*page_size` (the source's u32 product is Paging.OffsetAsWritten; see Findings). A rejected order key rejects the plan with the lookup's own error. |
| AttachmentModels.FromAttachmentText | src/attachments/models.rs:51-62 | The five document fields come from the text. cid, created and modified come from the arguments. |
| AttachmentModels.FromAttachmentTextOfInfo | src/attachments/models.rs:51-62 | Splitting an info record into document and row fields and rebuilding it gives the same record. |
| AttachmentModels.FromAttachment | src/attachments/models.rs:64-76 | Fails iff the row's text does not decode. Otherwise it equals `from_attachment_text` of the decoded text and the row's cid, created and modified. |
| AttachmentModels.Violations | src/attachments/models.rs:80-88 | Rejects page = 0, page_size = 0, and an order_by whose length is outside 1..13. Rejects nothing else. |
| AttachmentModels.PrivateIsUnconstrained | src/attachments/models.rs:87 | The `private` flag never affects validation. |
| AttachmentModels.AcceptedQueryHasPositivePage | src/attachments/models.rs:81-84 | After validation and defaulting, page and page size are at least 1, so `page - 1` cannot underflow. |
| AttachmentViews.IsModerator | src/attachments/views.rs:138 | The `admin` test holds exactly for the groups the editor gate admits. |
| AttachmentViews.MayActOn | src/attachments/views.rs:139 | The ownership test holds iff the caller wrote the row or passes the editor gate. |
| AttachmentViews.ModeratorIsEditorTier | src/attachments/views.rs:138 | The handlers' `admin` test is exactly the editor gate. |
| AttachmentViews.ListScope | src/attachments/views.rs:25-26 | The listing is unrestricted iff `private == Some(true)` and the caller passes the editor gate. Otherwise it is scoped to the caller's uid. |
| AttachmentViews.ScopeSql | src/attachments/views.rs:28-35 | The filter is empty iff the listing is unrestricted. |
| AttachmentViews.ScopeSqlEmbedsOnlyTheUid | src/attachments/views.rs:28-35 | The scope filter is empty iff the listing is unrestricted. Otherwise it is a fixed prefix followed by digits that read back as the caller's uid. |
| AttachmentViews.AttachmentOrder | src/attachments/views.rs:45-51 | Accepts a key iff it is in the content whitelist, and then yields that key's fragment. Otherwise returns `InvalidParams(key)`. |
| AttachmentViews.AttachmentOrderIsWhitelisted | src/attachments/views.rs:45-51 | An accepted fragment is one of "cid", "cid DESC", "slug" and "slug DESC". |
| AttachmentViews.AttachmentListDefaults | src/attachments/views.rs:40-44 | An empty query plans page 1, page size 10, offset 0 and "cid DESC". |
| AttachmentViews.ConvertRows | src/attachments/views.rs:57-61 | The results are the fetched rows converted one for one, in order. |
| AttachmentViews.ListAttachments | src/attachments/views.rs:20-70 | The count statement is issued first. A rejected key returns its error before the list statement is issued. A failed fetch passes its error through. Otherwise page and page_size are the plan's, all_count is the count reply, and count equals the number of results, which are the fetched rows converted in order. |
| AttachmentViews.ListContentAttachmentsBySlug | src/attachments/views.rs:245-272 | An unknown slug gives `InvalidParams("slug")`. Otherwise the result is the store's reply (`fetchByParent`) for that content's cid, each row converted in order. page is 1, and page_size, all_count and count all equal the number of results. |
| AttachmentViews.FirstIndexOf | src/attachments/views.rs:90-93 | Returns the first position of the character, or none iff the character does not occur. |
| AttachmentViews.Extension | src/attachments/views.rs:90-94 | None iff the name has no dot. Otherwise the name is a dot-free stem, a dot and the extension. |
| AttachmentViews.ExtensionOfJoin | src/attachments/views.rs:90-94 | A dot-free stem joined by a dot to any text yields exactly that text as the extension. |
| AttachmentViews.StoredName | src/attachments/views.rs:97 | Reading the extension of the stored name gives back the uploaded extension, for any draw. |
| AttachmentViews.StoredNameShape | src/attachments/views.rs:96-97 | For a draw in [1_000_000_000, 9_999_999_999) the stored name has ten digits, and its extension is the uploaded one. |
| AttachmentViews.StoredNamesDiffer | src/attachments/views.rs:96-97 | Different draws give different stored names. |
| AttachmentViews.UploadDir | src/attachments/views.rs:99 | The upload directory has no dot in it. |
| AttachmentViews.StoredPath | src/attachments/views.rs:103 | The path ends with the name, and when the name has an extension the path has the same one. |
| AttachmentViews.StoredPathShape | src/attachments/views.rs:99-103 | The path `/usr/uploads/{y}/{m}/{name}` ends with the stored name, and its extension is the uploaded one. |
| AttachmentViews.ReadHeader | src/attachments/views.rs:78-94 | Fails iff the part, its file name or its content type is missing, or the name has no dot. On success the values read are the part's name, content type and extension. |
| AttachmentViews.PrepareUpload | src/attachments/views.rs:78-114 | Header failures and serialiser failures give `InvalidParams("file")`, and a storage failure passes its error through. On success the document holds the client's name, the stored path, the size, the extension and the mime type, and its serialisation. |
| AttachmentViews.PreparedUploadIsConsistent | src/attachments/views.rs:103-110 | A prepared document records the client's file name. Both that name and the stored path have the recorded type as their extension. |
| AttachmentViews.CreateAttachment | src/attachments/views.rs:72-126 | Upload failures pass through. Otherwise the INSERT binds the client's file name, `now` cut to i32, the serialised document and the caller's uid. |
| AttachmentViews.GetAttachmentByCid | src/attachments/views.rs:128-145 | A missing cid is `NotFound("cid")`. Otherwise the row is returned iff the caller wrote it or moderates; else `PermissionDeny`. |
| AttachmentViews.ModifyAttachmentByCid | src/attachments/views.rs:147-217 | Rejections come in this order: `NotFound("cid")`, then `PermissionDeny`, then `DatabaseFailed` on an undecodable old text, then the upload's own error, then the store's error for the UPDATE, and each error is pinned to its value. Every rejection leaves the store unchanged. On success only title, modified and text of that row change. |
| AttachmentViews.DeleteAttachmentByCid | src/attachments/views.rs:219-243 | Rejections come in this order: `InvalidParams("cid")`, then `PermissionDeny`, then `DatabaseFailed`, then the store's error. Every rejection leaves the store unchanged. On success only that row, and its slug in the index, are removed. |
| AttachmentViews.AddAttachmentToContent | src/attachments/views.rs:274-298 | Succeeds iff the attachment exists, the slug names a content, the caller wrote that content or moderates, and the update succeeds. The errors are `InvalidParams("cid")`, then `InvalidParams("slug")`, then `PermissionDeny` for the content, then the store's error. The attachment's author is not checked. On success only the attachment's parent changes, to the content's cid. It is unchanged on rejection. |
| AttachmentViews.DeleteAttachmentFromContent | src/attachments/views.rs:300-326 | Succeeds iff the caller may act on both the attachment and the content. The errors are `InvalidParams("cid")`, then `PermissionDeny` for the attachment, then `InvalidParams("slug")`, then `PermissionDeny` for the content, then the store's error. On success only the attachment's parent changes, to 0, whatever it was before. It is unchanged on rejection. |
| UserViews.Claims | src/users/views.rs:27-30 | The subject is digits that read back as the uid, and the expiry is `expire` seconds after now. |
| UserViews.ClaimsIdentifyTheUser | src/users/views.rs:28 | Two users' tokens never share a subject. |
| UserViews.LoginForAccessToken | src/users/views.rs:17-52 | No authenticated user gives `WrongCredentials` and changes nothing. Otherwise the result is a signed "Bearer" token, and only that user's activated and logged are set to `now as u32`. A failed UPDATE is ignored. |
| UserViews.RegisteredUser | src/users/views.rs:64-70 | screenName is the name, the password is stored hashed, and the group is "subscriber". |
| UserViews.RegisteredUserIsSubscriberOnly | src/users/views.rs:67 | A registered user passes the subscriber gate and not the contributor gate. |
| UserViews.Register | src/users/views.rs:54-86 | A failed insert gives `AlreadyExist("name or mail")` and changes nothing. Otherwise exactly the new row is added, and its uid is returned. |
| UserViews.UserOrder | src/users/views.rs:110-118 | Accepts a key iff it is in the user whitelist, and then yields that key's fragment. Otherwise returns `InvalidParams(key)`. |
| UserViews.UserOrderIsWhitelisted | src/users/views.rs:110-118 | An accepted fragment is one of six constants. |
| UserViews.UserListDefaults | src/users/views.rs:105-109 | An empty query plans page 1, page size 10, offset 0 and "uid DESC". |
| UserViews.ListUsers | src/users/views.rs:88-146 | The count is issued first and falls back to 0. A rejected key returns before the list statement. A failed list is `DatabaseFailed` with the store's message. Otherwise count equals the number of users returned. |
| UserViews.GetUserById | src/users/views.rs:148-177 | Callers get their own record. An administrator gets another user's record with the password cleared, or `InvalidParams("uid")` if it is missing. Anyone else gets `PermissionDeny`. |
| UserViews.GetUserByIdHidesOtherPasswords | src/users/views.rs:153-176 | Only the caller's own record carries a password. A read succeeds iff it is the caller's own record, or the caller is an administrator and the row exists. |
| UserViews.MayModifyUser | src/users/views.rs:185 | The rule admits a caller iff the caller passes the administrator gate, or modifies themselves without changing their group. |
| UserViews.NoSelfPromotion | src/users/views.rs:185 | Below administrator, the rule admits only self-service that keeps the caller's own group. |
| UserViews.ModifyUserById | src/users/views.rs:179-250 | Rejections come in this order: `PermissionDeny`, then `InvalidParams("group")`, then `InvalidParams("uid")`. Each leaves the store unchanged. A supplied password changes only the password. Otherwise only name, mail, url, screenName and group change. |
| PostViews.PostRow | src/posts/views.rs:36-52 | The inserted row has type "post", the caller as author and modified = now, with the request's other fields. |
| PostViews.CreatePost | src/posts/views.rs:12-59 | An existing slug gives `AlreadyExist("slug")` and no insert; a failed insert gives the same error. On success exactly the new row is added, returns its id, and is found by its slug. |
| PostViews.PostOrder | src/posts/views.rs:77-82 | Never rejects. A whitelisted key yields its fragment; every other key yields "cid". |
| PostViews.PostOrderIsWhitelisted | src/posts/views.rs:77-82 | The fragment is always one of four constants. |
| PostViews.PostListQuery | src/posts/views.rs:76-84 | The list statement carries the page size, the offset `(page-1)*page_size` and the post order. It is the meta variant iff `with_meta` is set. |
| PostViews.ListPosts | src/posts/views.rs:61-182 | Always answers with the query's page and page_size and the count reply, or 0. count equals the number of results. A failed fetch gives an empty page. |
| PostViews.PostPagesTile | src/posts/views.rs:76 | The next page's offset is this page's offset plus the page size. |
| PostViews.GetPostBySlug | src/posts/views.rs:184-258 | Every miss is `PermissionDeny`. Without meta it succeeds iff a post carries the slug, and it returns that stored row. |

## Left out

- SQL text and execution are not modelled. LIMIT/OFFSET, the count queries
  and the CTE aggregation of categories and tags are all store replies. The
  post count's predicate is unquoted (`type == post`, src/posts/views.rs:69),
  so its value is treated as an opaque reply.
- The meta variants of the post endpoints are store replies. Their inner
  joins mean a post without a category or a tag may be missing from them.
- Multipart parsing, `stream_to_file` and `delete_file` are file I/O. Only
  a part's file name, content type and stored size enter the model. The
  modify handler deletes the old file before the new upload is checked; this
  is not modelled.
- `Local::now`, `SystemTime::now` and the random number generator are
  arguments. The calendar year and month enter as numbers.
- HMAC/JWT signing, password hashing and the credential resolver behind
  `get_user` and `authenticate_user` are black boxes, passed in as arguments.
- The `AttachmentText` (de)serialiser and `AttachmentInfo::from`, which is
  defined elsewhere, are arguments.
- The attachment handlers import `PMContributor` and `FieldError` from
  `crate::common`, which is not part of this model. They are taken to be the
  contributor gate of `src/users/extractors.rs` and the same errors. Every
  `requires Admits(caller, Contributor)` in `AttachmentViews` rests on that.
- Store helpers whose SQL is not part of this model:
  `get_content_by_slug` is taken to be a lookup by slug over every content
  type, through the unique index on `slug` (`Db.ContentBySlug`);
  `get_content_by_cid` is a lookup by key over every content type,
  `delete_content_by_cid` removes that key, and
  `modify_attachment_parent_by_cid` rewrites that row's parent. The
  attachment UPDATE is assumed to write title, modified and text.
- `get_attachments_by_parent` and the list statements are store replies
  with no constraint on their rows (`fetchByParent`, `fetch`); nothing
  proves that the rows returned have that parent.
- PostViews.PostRow and UserViews.RegisteredUser take the columns their
  INSERT does not name (`order`, `commentsNum` and `parent` of a post,
  `activated` and `logged` of a user) as 0. That is the schema's default,
  which is not part of this model.
- PostViews.PostListQuery: binds the exact offset `(page-1)*page_size`,
  not the wrapping u32 product of src/posts/views.rs:76, so
  PostViews.PostPagesTile proves the tiling of the exact offset only (see
  Findings).
- Paging.PlanList: binds the exact offset `(page-1)*page_size`, not the
  wrapping u32 product the list handlers compute; the wrap is stated
  separately by Paging.OffsetAsWritten and its lemma (see Findings).
- AttachmentViews.CreateAttachment: stops at the values bound into the INSERT and adds no row to the store, because the attachment INSERT's column list is not part of this model.
- The validation of `UsersQuery`, `PostsQuery`, `PostCreate` and
  `UserModify` is not part of this model. The list handlers require page ≥ 1
  in its place, and field types follow the handlers' use.
- Reads by key are assumed not to fail. UserViews.GetUserById and
  PostViews.GetPostBySlug read the tables as maps, so a failed `fetch_one`
  of an existing row is not modelled. In the source that failure also
  gives `InvalidParams("uid")` or `PermissionDeny`.
- The `unwrap_or(false)` of the exists queries in `create_post` and
  `modify_user_by_id` is not modelled, since exists is computed from the
  tables.
- The unique constraints on user name and mail belong to the schema, so
  insert verdicts are arguments.
- The MySQL and ANSI quoting of `authorId` are both modelled only as fixed
  prefixes.
- UserViews.Claims: `now + expire` is exact here; the u64 addition's overflow is not modelled.
- Async plumbing, `Arc<AppState>`, status codes and JSON encoding are not
  modelled. Router wiring (src/attachments/urls.rs, src/comments/urls.rs) is
  not part of this model.

## Findings

| source | as written | input that shows it | evidently intended | confidence | as-written member | corrected member |
|---|---|---|---|---|---|---|
| src/attachments/views.rs:44 | `(page - 1) * page_size` in u32 (also src/users/views.rs:109 and src/posts/views.rs:76), and validation only bounds both from below (src/attachments/models.rs:81-84) | page = 65537, page_size = 65536: the product 2^32 wraps to offset 0 (or panics in a debug build), so page 65537 repeats page 1 | the offset of page p is (p-1)·page_size, exact, so each page starts where the previous ends | medium, not executed | Paging.OffsetAsWritten (Paging.OffsetAsWrittenWraps) | Paging.Offset (Paging.OffsetTilesPages) |
