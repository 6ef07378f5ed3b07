/** The two tables the handlers read and write, seen as maps: typecho_contents
    keyed by `cid` (posts and attachments share it) and the users table keyed
    by `uid`. The SQL that reaches them is not modelled; each handler's reads
    and writes are stated as lookups and map updates. */
module Store {
  import opened Common

  /** A row of typecho_contents. `kind` is the `type` column. */
  datatype Content = Content(
    cid: int,
    title: Option<string>,
    slug: Option<string>,
    created: int,
    modified: int,
    text: string,
    order: int,
    authorId: int,
    template: Option<string>,
    kind: string,
    status: string,
    password: Option<string>,
    commentsNum: int,
    allowComment: string,
    allowPing: string,
    allowFeed: string,
    parent: int)

  /** A row of the users table. `group` is the free-form role string. */
  datatype User = User(
    uid: nat,
    name: string,
    mail: string,
    url: string,
    screenName: string,
    password: Option<string>,
    created: int,
    activated: int,
    logged: int,
    group: string)

  /** Every content row is stored under its own primary key. */
  ghost predicate KeyedByCid(m: map<int, Content>) {
    forall c :: c in m ==> m[c].cid == c
  }

  /** The unique index on `slug`. */
  ghost predicate SlugsUnique(m: map<int, Content>) {
    forall a, b :: a in m && b in m && m[a].slug.Some? && m[a].slug == m[b].slug ==> a == b
  }

  /** Every user row is stored under its own primary key. */
  ghost predicate KeyedByUid(m: map<nat, User>) {
    forall u :: u in m ==> m[u].uid == u
  }

  ghost predicate HasSlug(m: map<int, Content>, slug: string) {
    exists c :: c in m && m[c].slug == Some(slug)
  }

  /** The row whose slug is `slug`, if there is one (with SlugsUnique, there is at most one). */
  ghost function BySlug(m: map<int, Content>, slug: string): Option<Content> {
    if HasSlug(m, slug) then
      var c :| c in m && m[c].slug == Some(slug); Some(m[c])
    else
      None
  }

  /** Under the unique index, a row carrying the slug is the one BySlug finds. */
  lemma BySlugIsTheRow(m: map<int, Content>, slug: string, c: int)
    requires SlugsUnique(m) && c in m && m[c].slug == Some(slug)
    ensures BySlug(m, slug) == Some(m[c])
  {
  }

  /** `get_content_by_cid`: the row stored under this key, of any type. */
  function ByCid(m: map<int, Content>, cid: int): (found: Option<Content>)
    ensures found.Some? <==> cid in m
    ensures found.Some? ==> found.value == m[cid]
    ensures found.Some? && KeyedByCid(m) ==> found.value.cid == cid
  {
    if cid in m then Some(m[cid]) else None
  }

  /** The slug index agrees with the table: every indexed slug names a row
      carrying it, and every row's slug is indexed under that row's cid. */
  ghost predicate SlugIndexed(m: map<int, Content>, index: map<string, int>) {
    && (forall s :: s in index ==> index[s] in m && m[index[s]].slug == Some(s))
    && (forall c :: c in m && m[c].slug.Some? ==> m[c].slug.value in index && index[m[c].slug.value] == c)
  }

  lemma IndexedSlugsAreUnique(m: map<int, Content>, index: map<string, int>)
    requires SlugIndexed(m, index)
    ensures SlugsUnique(m)
  {
  }

  class Db {
    var contents: map<int, Content>
    /** The unique index on `slug`: slug to the cid of the row carrying it. */
    var slugIndex: map<string, int>
    var users: map<nat, User>

    ghost predicate Valid()
      reads this
    {
      KeyedByCid(contents) && SlugIndexed(contents, slugIndex) && KeyedByUid(users)
    }

    constructor ()
      ensures Valid() && contents == map[] && slugIndex == map[] && users == map[]
    {
      contents := map[];
      slugIndex := map[];
      users := map[];
    }

    /** `get_content_by_slug`: the row with this slug, found through the unique index. */
    function ContentBySlug(slug: string): (found: Option<Content>)
      reads this
      requires Valid()
      ensures found == BySlug(contents, slug)
      ensures found.Some? ==> found.value.cid in contents && contents[found.value.cid] == found.value
      ensures found.Some? ==> found.value.slug == Some(slug)
      ensures found.None? <==> !HasSlug(contents, slug)
    {
      IndexedSlugsAreUnique(contents, slugIndex);
      if slug in slugIndex then
        BySlugIsTheRow(contents, slug, slugIndex[slug]);
        Some(contents[slugIndex[slug]])
      else
        None
    }

    /** An UPDATE of one content row that leaves its key and its slug alone. */
    method UpdateContent(row: Content)
      requires Valid() && row.cid in contents && contents[row.cid].slug == row.slug
      modifies this
      ensures Valid()
      ensures contents == old(contents)[row.cid := row]
      ensures slugIndex == old(slugIndex) && users == old(users)
    {
      contents := contents[row.cid := row];
    }

    /** An INSERT of a content row under a fresh key and an unused slug. */
    method InsertContent(row: Content)
      requires Valid() && row.cid !in contents
      requires row.slug.Some? ==> !HasSlug(contents, row.slug.value)
      modifies this
      ensures Valid()
      ensures contents == old(contents)[row.cid := row]
      ensures slugIndex == if row.slug.Some? then old(slugIndex)[row.slug.value := row.cid] else old(slugIndex)
      ensures users == old(users)
    {
      contents := contents[row.cid := row];
      if row.slug.Some? {
        slugIndex := slugIndex[row.slug.value := row.cid];
      }
    }

    /** A DELETE of one content row; its slug leaves the index with it. */
    method DeleteContent(cid: int)
      requires Valid() && cid in contents
      modifies this
      ensures Valid()
      ensures contents == old(contents) - {cid}
      ensures slugIndex == if old(contents)[cid].slug.Some? then old(slugIndex) - {old(contents)[cid].slug.value} else old(slugIndex)
      ensures users == old(users)
    {
      var slug := contents[cid].slug;
      contents := contents - {cid};
      if slug.Some? {
        slugIndex := slugIndex - {slug.value};
      }
    }

    /** An UPDATE of one user row that leaves its key alone. */
    method UpdateUser(user: User)
      requires Valid() && user.uid in users
      modifies this
      ensures Valid()
      ensures users == old(users)[user.uid := user]
      ensures contents == old(contents) && slugIndex == old(slugIndex)
    {
      users := users[user.uid := user];
    }

    /** An INSERT of a user row under a fresh key. */
    method InsertUser(user: User)
      requires Valid() && user.uid !in users
      modifies this
      ensures Valid()
      ensures users == old(users)[user.uid := user]
      ensures contents == old(contents) && slugIndex == old(slugIndex)
    {
      users := users[user.uid := user];
    }
  }
}
