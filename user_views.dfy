/** The user endpoints: login, registration, the administrator's user list,
    reading one user and modifying one user. Credential checking, password
    hashing and token signing are not part of this model; they enter as
    `authenticated`, `hash` and `sign`. The clock is the `now` argument
    (seconds since the epoch). */
module UserViews {
  import opened Common
  import opened Store
  import opened Extractors
  import opened Paging

  // ---------------------------------------------------------------------
  // Login

  /** The claims of an access token. */
  datatype TokenData = TokenData(sub: string, exp: nat)

  /** The body of a successful login. */
  datatype AccessToken = AccessToken(accessToken: string, tokenType: string)

  /** The subject is the uid in decimal, and the expiry lies `expire`
      seconds after `now`. */
  function Claims(uid: nat, now: nat, expire: nat): (t: TokenData)
    ensures AllDigits(t.sub) && ParseDecimal(t.sub) == uid
    ensures t.exp - now == expire
  {
    ParseDecimalString(uid);
    TokenData(DecimalString(uid), now + expire)
  }

  /** Tokens of different users have different subjects. */
  lemma ClaimsIdentifyTheUser(a: nat, b: nat, now: nat, expire: nat)
    requires Claims(a, now, expire).sub == Claims(b, now, expire).sub
    ensures a == b
  {
  }

  /** `login_for_access_token`. An authenticated user gets a signed bearer
      token, and their `activated` and `logged` columns are set to `now`
      cut to `u32`. The outcome of that UPDATE is ignored: when it fails
      (`updateFails`) the login still succeeds and the row is unchanged. */
  method LoginForAccessToken(db: Db, authenticated: Option<User>, now: nat, expire: nat,
                             sign: TokenData -> string, updateFails: bool)
    returns (r: Result<AccessToken, AuthError>)
    requires db.Valid()
    modifies db
    ensures db.Valid()
    ensures authenticated.None? ==> r == Err(WrongCredentials) && unchanged(db)
    ensures authenticated.Some? ==>
      var uid := authenticated.value.uid;
      && r == Ok(AccessToken(sign(Claims(uid, now, expire)), "Bearer"))
      && db.contents == old(db.contents) && db.slugIndex == old(db.slugIndex)
      && db.users == if updateFails || uid !in old(db.users) then old(db.users)
                     else old(db.users)[uid := old(db.users)[uid].(activated := AsU32(now), logged := AsU32(now))]
  {
    if authenticated.None? {
      r := Err(WrongCredentials);
      return;
    }
    var user := authenticated.value;
    var access := sign(Claims(user.uid, now, expire));
    if !updateFails && user.uid in db.users {
      var row := db.users[user.uid];
      db.UpdateUser(row.(activated := AsU32(now), logged := AsU32(now)));
    }
    r := Ok(AccessToken(access, "Bearer"));
  }

  // ---------------------------------------------------------------------
  // Registration

  /** The row `register` inserts: the screen name is the name, the password
      is stored hashed, and the group is always "subscriber". The INSERT
      leaves `activated` and `logged` to their defaults, 0 here. */
  function RegisteredUser(uid: nat, name: string, mail: string, url: string, hashed: string, created: u32): (u: User)
    ensures u.uid == uid && u.name == name && u.mail == mail && u.url == url
    ensures u.screenName == name && u.password == Some(hashed) && u.created == created
    ensures ParseGroup(u.group) == Some(Subscriber)
  {
    User(uid, name, mail, url, name, Some(hashed), created, 0, 0, "subscriber")
  }

  /** A newly registered user passes the subscriber gate and no other. */
  lemma RegisteredUserIsSubscriberOnly(uid: nat, name: string, mail: string, url: string, hashed: string, created: u32)
    ensures Admits(RegisteredUser(uid, name, mail, url, hashed, created), Subscriber)
    ensures !Admits(RegisteredUser(uid, name, mail, url, hashed, created), Contributor)
  {
  }

  /** `register`. `newUid` is the key the store assigns and `insertFails`
      its verdict (the unique constraints on name and mail live in the
      schema). */
  method Register(db: Db, name: string, mail: string, url: string, password: string, now: nat,
                  hash: string -> string, newUid: nat, insertFails: bool)
    returns (r: Result<nat, FieldError>)
    requires db.Valid() && newUid !in db.users
    modifies db
    ensures db.Valid()
    ensures insertFails ==> r == Err(AlreadyExist("name or mail")) && unchanged(db)
    ensures !insertFails ==>
      && r == Ok(newUid)
      && db.users == old(db.users)[newUid := RegisteredUser(newUid, name, mail, url, hash(password), AsU32(now))]
      && db.contents == old(db.contents) && db.slugIndex == old(db.slugIndex)
  {
    if insertFails {
      r := Err(AlreadyExist("name or mail"));
      return;
    }
    db.InsertUser(RegisteredUser(newUid, name, mail, url, hash(password), AsU32(now)));
    r := Ok(newUid);
  }

  // ---------------------------------------------------------------------
  // Listing

  /** The query string of the user list. */
  datatype UsersQuery = UsersQuery(page: Option<u32>, pageSize: Option<u32>, orderBy: Option<string>)

  const DEFAULT_USER_ORDER: string := "-uid"

  /** The order whitelist; any other key is rejected with the key itself. */
  function UserOrder(key: string): (r: Result<string, FieldError>)
    ensures r.Ok? <==> key in USER_ORDER
    ensures r.Ok? ==> r.value == USER_ORDER[key]
    ensures r.Err? ==> r.error == InvalidParams(key)
  {
    match key
    case "uid" => Ok("uid")
    case "-uid" => Ok("uid DESC")
    case "name" => Ok("name")
    case "-name" => Ok("name DESC")
    case "mail" => Ok("mail")
    case "-mail" => Ok("mail DESC")
    case _ => Err(InvalidParams(key))
  }

  /** Whatever the client sends, the ORDER BY fragment is one of six constants. */
  lemma UserOrderIsWhitelisted(key: string)
    ensures UserOrder(key).Ok? ==>
      UserOrder(key).value in {"uid", "uid DESC", "name", "name DESC", "mail", "mail DESC"}
  {
  }

  /** An empty query lists the first ten users, newest first. */
  lemma UserListDefaults()
    ensures PlanList(None, None, None, DEFAULT_USER_ORDER, UserOrder) == Ok(ListPlan(1, 10, 0, "uid DESC"))
  {
  }

  /** A list response and the statements issued to produce it. */
  datatype ListReply<T> = ListReply(result: Result<Page<T>, FieldError>, issued: seq<Query>)

  /** `list_users` (administrators only). The count comes first and falls
      back to 0 when its statement fails; a rejected order key returns
      before the list statement; a failed list statement is
      `DatabaseFailed` with the store's message. */
  function ListUsers(caller: User, q: UsersQuery, count: Option<int>,
                     fetch: Query -> Result<seq<User>, string>): (reply: ListReply<User>)
    requires Admits(caller, Administrator)
    requires q.page != Some(0)
    ensures |reply.issued| >= 1 && reply.issued[0] == CountQuery("")
    ensures var key := q.orderBy.GetOr(DEFAULT_USER_ORDER);
            UserOrder(key).Err? ==> reply == ListReply(Err(InvalidParams(key)), [CountQuery("")])
    ensures var plan := PlanList(q.page, q.pageSize, q.orderBy, DEFAULT_USER_ORDER, UserOrder);
            plan.Ok? ==>
              var list := PageQuery("", plan.value.pageSize, plan.value.offset, plan.value.order);
              && reply.issued == [CountQuery(""), list]
              && (fetch(list).Err? ==> reply.result == Err(DatabaseFailed(fetch(list).error)))
              && (fetch(list).Ok? ==>
                    reply.result == Ok(Page(plan.value.page, plan.value.pageSize, count.GetOr(0),
                                            |fetch(list).value|, fetch(list).value)))
  {
    var allCount := count.GetOr(0);
    match PlanList(q.page, q.pageSize, q.orderBy, DEFAULT_USER_ORDER, UserOrder)
    case Err(e) => ListReply(Err(e), [CountQuery("")])
    case Ok(plan) =>
      var list := PageQuery("", plan.pageSize, plan.offset, plan.order);
      match fetch(list)
      case Err(message) => ListReply(Err(DatabaseFailed(message)), [CountQuery(""), list])
      case Ok(users) => ListReply(Ok(Page(plan.page, plan.pageSize, allCount, |users|, users)), [CountQuery(""), list])
  }

  // ---------------------------------------------------------------------
  // Reading one user

  /** `get_user_by_id`. Anyone reads their own record as the gate resolved
      it; an administrator reads anyone else's with the password cleared;
      everyone else is refused. */
  function GetUserById(db: Db, caller: User, uid: u32): (r: Result<User, FieldError>)
    reads db
    requires Admits(caller, Subscriber)
    ensures caller.uid == uid ==> r == Ok(caller)
    ensures caller.uid != uid && caller.group == "administrator" ==>
      r == if uid in db.users then Ok(db.users[uid].(password := None)) else Err(InvalidParams("uid"))
    ensures caller.uid != uid && caller.group != "administrator" ==> r == Err(FieldError.PermissionDeny)
  {
    if caller.uid == uid then Ok(caller)
    else if caller.group == "administrator" then
      if uid in db.users then Ok(db.users[uid].(password := None)) else Err(InvalidParams("uid"))
    else Err(FieldError.PermissionDeny)
  }

  /** Only the caller's own record carries a password; a read succeeds iff it
      is the caller's own, or the caller is an administrator and the row
      exists. */
  lemma GetUserByIdHidesOtherPasswords(db: Db, caller: User, uid: u32)
    requires db.Valid() && Admits(caller, Subscriber)
    ensures var r := GetUserById(db, caller, uid);
            && (r.Ok? ==> r.value.uid == uid)
            && (r.Ok? && r.value.password.Some? ==> r.value == caller)
            && (r.Ok? <==> caller.uid == uid || (Admits(caller, Administrator) && uid in db.users))
  {
  }

  // ---------------------------------------------------------------------
  // Modifying one user

  /** The body of a modification request. */
  datatype UserModify = UserModify(name: string, mail: string, url: string, screenName: string,
                                   group: string, password: Option<string>)

  /** Which branch a successful modification took. */
  datatype Changed = InfoChanged | PasswordChanged

  /** An administrator may modify anyone; anyone else only themselves, and
      only when the requested group is the one they already have. */
  predicate MayModifyUser(caller: User, uid: u32, requestedGroup: string)
    ensures MayModifyUser(caller, uid, requestedGroup)
            <==> Admits(caller, Administrator) || (caller.uid == uid && caller.group == requestedGroup)
  {
    RequireAdmitsExactly(caller, Administrator);
    (caller.uid == uid && caller.group == requestedGroup) || caller.group == "administrator"
  }

  /** Outside the administrator tier the rule leaves only self-service
      without a change of group. */
  lemma NoSelfPromotion(caller: User, uid: u32, requestedGroup: string)
    requires MayModifyUser(caller, uid, requestedGroup) && !Admits(caller, Administrator)
    ensures uid == caller.uid && requestedGroup == caller.group
  {
  }

  /** `modify_user_by_id`. After the authorisation rule, the requested group
      must name a role (even when only the password changes), then the
      row must exist and the UPDATE succeed (`updateFails` is the store's
      verdict); each of the last two failures is `InvalidParams("uid")`.
      A password in the request changes the password alone; otherwise the
      five profile columns change and the password stays. */
  method ModifyUserById(db: Db, caller: User, uid: u32, request: UserModify,
                        hash: string -> string, updateFails: bool)
    returns (r: Result<Changed, FieldError>)
    requires db.Valid() && Admits(caller, Subscriber)
    modifies db
    ensures db.Valid()
    ensures !MayModifyUser(caller, uid, request.group) ==> r == Err(FieldError.PermissionDeny)
    ensures MayModifyUser(caller, uid, request.group) && ParseGroup(request.group).None? ==> r == Err(InvalidParams("group"))
    ensures MayModifyUser(caller, uid, request.group) && ParseGroup(request.group).Some?
            && (uid !in old(db.users) || updateFails)
            ==> r == Err(InvalidParams("uid"))
    ensures r.Err? ==> unchanged(db)
    ensures r.Ok? <==>
      MayModifyUser(caller, uid, request.group) && ParseGroup(request.group).Some? && uid in old(db.users) && !updateFails
    ensures db.contents == old(db.contents) && db.slugIndex == old(db.slugIndex)
    ensures r.Ok? && request.password.Some? ==>
      && r.value == PasswordChanged
      && db.users == old(db.users)[uid := old(db.users)[uid].(password := Some(hash(request.password.value)))]
    ensures r.Ok? && request.password.None? ==>
      && r.value == InfoChanged
      && db.users == old(db.users)[uid := old(db.users)[uid].(name := request.name, mail := request.mail,
                                         url := request.url, screenName := request.screenName, group := request.group)]
    ensures r.Ok? && caller.group != "administrator" ==> uid == caller.uid
    ensures r.Ok? && caller.group != "administrator" && old(db.users)[uid].group == caller.group
            ==> db.users[uid].group == old(db.users)[uid].group
  {
    if !((caller.uid == uid && caller.group == request.group) || caller.group == "administrator") {
      r := Err(FieldError.PermissionDeny);
      return;
    }
    match request.group {
      case "subscriber" | "contributor" | "editor" | "administrator" =>
      case _ =>
        r := Err(InvalidParams("group"));
        return;
    }
    if uid !in db.users || updateFails {
      r := Err(InvalidParams("uid"));
      return;
    }
    var row := db.users[uid];
    if request.password.None? {
      db.UpdateUser(row.(name := request.name, mail := request.mail, url := request.url,
                         screenName := request.screenName, group := request.group));
      r := Ok(InfoChanged);
    } else {
      db.UpdateUser(row.(password := Some(hash(request.password.value))));
      r := Ok(PasswordChanged);
    }
  }
}
