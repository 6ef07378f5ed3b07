/** The post endpoints: creating a post behind the contributor gate, and
    the public list and read. The meta variants (posts with their
    categories and tags) are built by SQL aggregation, which is not part
    of this model: their rows enter as the store's reply. */
module PostViews {
  import opened Common
  import opened Store
  import opened Extractors
  import opened Paging

  // ---------------------------------------------------------------------
  // Creating a post

  /** The body of a create request. */
  datatype PostCreate = PostCreate(
    title: string, slug: string, created: u32, text: string, template: Option<string>,
    status: string, password: Option<string>, allowComment: string, allowPing: string, allowFeed: string)

  const POST_KIND: string := "post"

  /** The row `create_post` inserts: type "post", the author is the caller,
      `modified` is the insertion time; the columns the INSERT does not
      name keep their defaults (0, or none). */
  function PostRow(cid: int, p: PostCreate, authorId: nat, modified: u32): (row: Content)
    ensures row.cid == cid && row.kind == POST_KIND && row.authorId == authorId && row.modified == modified
    ensures row.title == Some(p.title) && row.slug == Some(p.slug) && row.created == p.created && row.text == p.text
    ensures row.template == p.template && row.status == p.status && row.password == p.password
    ensures row.allowComment == p.allowComment && row.allowPing == p.allowPing && row.allowFeed == p.allowFeed
    ensures row.order == 0 && row.commentsNum == 0 && row.parent == 0
  {
    Content(cid, Some(p.title), Some(p.slug), p.created, modified, p.text, 0, authorId, p.template,
            POST_KIND, p.status, p.password, 0, p.allowComment, p.allowPing, p.allowFeed, 0)
  }

  /** `create_post`. A slug already carried by any content row is
      `AlreadyExist("slug")` and nothing is inserted. `newCid` is the key
      the store assigns and `insertFails` its verdict; a failed INSERT is
      reported as `AlreadyExist("slug")` too. */
  method CreatePost(db: Db, caller: User, p: PostCreate, now: nat, newCid: int, insertFails: bool)
    returns (r: Result<int, FieldError>)
    requires db.Valid() && Admits(caller, Contributor) && newCid !in db.contents
    modifies db
    ensures db.Valid()
    ensures HasSlug(old(db.contents), p.slug) ==> r == Err(AlreadyExist("slug"))
    ensures r.Err? ==> r == Err(AlreadyExist("slug")) && unchanged(db)
    ensures r.Ok? <==> !HasSlug(old(db.contents), p.slug) && !insertFails
    ensures r.Ok? ==>
      && r.value == newCid
      && db.contents == old(db.contents)[newCid := PostRow(newCid, p, caller.uid, AsU32(now))]
      && db.slugIndex == old(db.slugIndex)[p.slug := newCid]
      && db.users == old(db.users)
    ensures r.Ok? ==> db.ContentBySlug(p.slug) == Some(PostRow(newCid, p, caller.uid, AsU32(now)))
  {
    if db.ContentBySlug(p.slug).Some? {
      r := Err(AlreadyExist("slug"));
      return;
    }
    if insertFails {
      r := Err(AlreadyExist("slug"));
      return;
    }
    var row := PostRow(newCid, p, caller.uid, AsU32(now));
    db.InsertContent(row);
    r := Ok(newCid);
  }

  // ---------------------------------------------------------------------
  // Listing posts

  /** The query string of the post list, after its validation. */
  datatype PostsQuery = PostsQuery(page: u32, pageSize: u32, orderBy: string, withMeta: Option<bool>)

  /** The order mapping of the post list: it never rejects; every key
      outside the content whitelist, and "cid" itself, orders by "cid". */
  function PostOrder(key: string): (fragment: string)
    ensures key in CONTENT_ORDER ==> fragment == CONTENT_ORDER[key]
    ensures key !in CONTENT_ORDER ==> fragment == "cid"
  {
    match key
    case "-cid" => "cid DESC"
    case "slug" => "slug"
    case "-slug" => "slug DESC"
    case _ => "cid"
  }

  /** The fragment is one of four constants whatever the client sends. */
  lemma PostOrderIsWhitelisted(key: string)
    ensures PostOrder(key) in {"cid", "cid DESC", "slug", "slug DESC"}
  {
  }

  /** The list statement the post list issues. */
  function PostListQuery(q: PostsQuery): (query: Query)
    requires q.page >= 1
    ensures q.withMeta.GetOr(false) <==> query.MetaPageQuery?
    ensures query.PageQuery? ==> query.filter == ""
    ensures !query.CountQuery?
    ensures query.limit == q.pageSize && query.offset == Offset(q.page, q.pageSize)
    ensures query.order == PostOrder(q.orderBy)
  {
    var offset := Offset(q.page, q.pageSize);
    if q.withMeta.GetOr(false) then MetaPageQuery(q.pageSize, offset, PostOrder(q.orderBy))
    else PageQuery("", q.pageSize, offset, PostOrder(q.orderBy))
  }

  /** `list_posts` (public). It always answers: the count falls back to 0,
      and a failed list statement gives an empty page with the same page,
      page size and count. `fetch` is the store's reply to the list
      statement. */
  function ListPosts<T>(q: PostsQuery, count: Option<int>, fetch: Query -> Option<seq<T>>): (p: Page<T>)
    requires q.page >= 1
    ensures p.page == q.page && p.pageSize == q.pageSize && p.allCount == count.GetOr(0)
    ensures p.count == |p.results|
    ensures fetch(PostListQuery(q)).Some? ==> p.results == fetch(PostListQuery(q)).value
    ensures fetch(PostListQuery(q)).None? ==> p.results == []
  {
    var allCount := count.GetOr(0);
    match fetch(PostListQuery(q))
    case Some(posts) => Page(q.page, q.pageSize, allCount, |posts|, posts)
    case None => Page(q.page, q.pageSize, allCount, 0, [])
  }

  /** The page a post list asks for starts where the previous page ends. */
  lemma PostPagesTile(q: PostsQuery)
    requires q.page >= 1 && q.page + 1 < U32_MODULUS
    ensures PostListQuery(q.(page := q.page + 1)).offset == PostListQuery(q).offset + q.pageSize
  {
  }

  // ---------------------------------------------------------------------
  // Reading one post

  /** A post carries this slug. */
  ghost predicate HasPost(m: map<int, Content>, slug: string) {
    exists c :: c in m && m[c].slug == Some(slug) && m[c].kind == POST_KIND
  }

  /** What `get_post_by_slug` answers with: the row, or the aggregated row. */
  datatype PostReply<M> = Plain(post: Content) | Meta(postWithMeta: M)

  /** `get_post_by_slug` (public). Without meta, the post with this slug;
      with meta, the store's aggregated row (`metaReply`), which the inner
      joins leave out for a post without both a category and a tag. Every
      miss, a slug carried by a non-post row included, is `PermissionDeny`
      rather than `NotFound`. */
  function GetPostBySlug<M>(db: Db, slug: string, withMeta: Option<bool>, metaReply: Option<M>): (r: Result<PostReply<M>, FieldError>)
    reads db
    requires db.Valid()
    ensures r.Err? ==> r.error == FieldError.PermissionDeny
    ensures withMeta.GetOr(false) ==> r == if metaReply.Some? then Ok(Meta(metaReply.value)) else Err(FieldError.PermissionDeny)
    ensures !withMeta.GetOr(false) ==> (r.Ok? <==> HasPost(db.contents, slug))
    ensures !withMeta.GetOr(false) && r.Ok? ==>
      && r.value.Plain?
      && r.value.post.cid in db.contents && db.contents[r.value.post.cid] == r.value.post
      && r.value.post.slug == Some(slug) && r.value.post.kind == POST_KIND
  {
    if withMeta.GetOr(false) then
      match metaReply
      case Some(post) => Ok(Meta(post))
      case None => Err(FieldError.PermissionDeny)
    else
      IndexedSlugsAreUnique(db.contents, db.slugIndex);
      match db.ContentBySlug(slug)
      case Some(row) =>
        if row.kind == POST_KIND then Ok(Plain(row)) else Err(FieldError.PermissionDeny)
      case None => Err(FieldError.PermissionDeny)
  }
}
