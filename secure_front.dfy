/**
 * The wiki's front end with access control: the interactive save and delete
 * actions check the user's authority first, and the JSON API under `/api`
 * validates payloads, gates deletion on the token's `canDelete` claim and
 * maps each store reply to a status code and JSON body. Page rendering, the
 * create action and the backup are unchanged from the front end without
 * access control and are modelled there.
 */
module SecureFront {
  import opened Wrappers
  import opened JavaLang
  import opened WikiService
  import opened PageStore
  import opened Web
  import opened WikiFront

  /** How `checkAuthorised` completes. */
  datatype Completion = Complete | Raised(fault: Fault)

  /** The authority the save action checks: `create` for a new page, `update` otherwise. */
  function RequiredAuthority(f: UpdateForm): (authority: string)
    ensures authority == "create" <==> IsCreation(f)
    ensures authority == "update" <==> !IsCreation(f)
  {
    if IsCreation(f) then "create" else "update"
  }

  /**
   * `checkAuthorised`: completes only when the user's authorization check
   * (`authz`) succeeded with `true`; a `false` answer raises the
   * unauthorized error naming the authority, a failed check its cause.
   */
  function CheckAuthorised(authority: string, authz: Reply<bool>): (c: Completion)
    ensures c == Complete <==> authz == Succeeded(true)
    ensures authz == Succeeded(false) ==> c == Raised(Unauthorized(authority))
    ensures authz.Failed? ==> c == Raised(AuthorizationFault(authz.message))
  {
    match authz
    case Succeeded(authorized) => if authorized then Complete else Raised(Unauthorized(authority))
    case Failed(message) => Raised(AuthorizationFault(message))
  }

  /** The store call of the save action once it waits for the check: made only for an authorized user. */
  function AuthorizedUpdateCall(f: UpdateForm, authz: Reply<bool>): (call: Option<StoreOp>)
    ensures call.Some? ==> authz == Succeeded(true)
    ensures authz == Succeeded(true) ==> call == PageUpdateCall(f)
  {
    if CheckAuthorised(RequiredAuthority(f), authz) == Complete then PageUpdateCall(f) else None
  }

  /**
   * How the save action ends. An id that does not parse fails before the
   * check runs; otherwise the check's error, then the store's, ends the
   * request, and only when both complete is the browser sent to the page.
   */
  function SecurePageUpdate(f: UpdateForm, authz: Reply<bool>, reply: Reply<()>): (r: Outcome)
    ensures r.Responded? || r.RoutingFailed?
    ensures r.Responded? <==> PageUpdateCall(f).Some? && authz == Succeeded(true) && reply.Succeeded?
    ensures r.Responded? ==> r == SeeOther(PageLocation(f.title))
    ensures PageUpdateCall(f).None? ==> r == RoutingFailed(Thrown(NumberFormat(f.id)))
    ensures PageUpdateCall(f).Some? && authz != Succeeded(true) ==>
      r == RoutingFailed(Thrown(CheckAuthorised(RequiredAuthority(f), authz).fault))
    ensures authz == Succeeded(true) ==> r == PageUpdate(f, reply)
  {
    if PageUpdateCall(f).None? then RoutingFailed(Thrown(NumberFormat(f.id)))
    else
      match CheckAuthorised(RequiredAuthority(f), authz)
      case Raised(fault) => RoutingFailed(Thrown(fault))
      case Complete => PageUpdate(f, reply)
  }

  /**
   * As written, the create or save is requested while the chain is being
   * assembled, before the authorization check has answered, so the call is
   * `PageUpdateCall(f)` whatever the check answers. A user without the
   * `update` authority who posts an edit of page 0 is refused, yet the edit
   * has already reached the store and replaced the page's content.
   */
  lemma UnauthorizedUpdateReachesStore()
    ensures var f := UpdateForm(Some("Home"), Some("no"), Some("defaced"), Some("0"));
      var s := Store(map[0 := Page("Home", "welcome")], 1);
      var call := PageUpdateCall(f);
      && call == Some(SavePage(0, Some("defaced")))
      && SecurePageUpdate(f, Succeeded(false), MutationReply(s, call)) == RoutingFailed(Thrown(Unauthorized("update")))
      && Effect(s, call).pages[0] == Page("Home", "defaced")
  {
    ParseIntToString(0);
    assert IntToString(0) == "0";
  }

  /** Once the call waits for the check, a refused save or create leaves the store as it was. */
  lemma RefusedUpdateLeavesStore(s: Store, f: UpdateForm, authz: Reply<bool>)
    requires authz != Succeeded(true)
    ensures Effect(s, AuthorizedUpdateCall(f, authz)) == s
    ensures SecurePageUpdate(f, authz, MutationReply(s, AuthorizedUpdateCall(f, authz))).RoutingFailed?
  {
  }

  /** The store call of the delete action: only for a user whose `delete` check succeeded with `true`. */
  function SecurePageDeletionCall(id: Option<string>, authz: Reply<bool>): (call: Option<StoreOp>)
    ensures call.Some? <==> authz == Succeeded(true) && ParseInt(id).Some?
    ensures call.Some? ==> call.value == DeletePage(ParseInt(id).value)
  {
    if authz == Succeeded(true) then PageDeletionCall(id) else None
  }

  const Forbidden: Outcome := Responded(403, map[], NoBody)

  /** How the delete action ends: 403 for anyone not authorized, otherwise as without access control. */
  function SecurePageDeletion(id: Option<string>, authz: Reply<bool>, reply: Reply<()>): (r: Outcome)
    ensures r == Forbidden <==> authz != Succeeded(true)
    ensures authz == Succeeded(true) ==> r == PageDeletion(id, reply)
    ensures r == SeeOther("/") <==> SecurePageDeletionCall(id, authz).Some? && reply.Succeeded?
  {
    if authz == Succeeded(true) then PageDeletion(id, reply) else Forbidden
  }

  /** A refused delete leaves the store as it was; an authorized one removes the page. */
  lemma SecureDeletionEffect(s: Store, id: Option<string>, authz: Reply<bool>)
    requires Consistent(s)
    ensures authz != Succeeded(true) ==> Effect(s, SecurePageDeletionCall(id, authz)) == s
    ensures authz == Succeeded(true) && ParseInt(id).Some? ==>
      FetchById(Effect(s, SecurePageDeletionCall(id, authz)), ParseInt(id).value) == NotFound
  {
    if authz == Succeeded(true) && ParseInt(id).Some? {
      DeleteThenFetch(s, ParseInt(id).value);
    }
  }

  /** A JSON object's members as the handlers read them: a string, or `null`. */
  type Document = map<string, Option<string>>

  /** `validateJsonPageDocument`'s test: every expected key is present, checked in order. */
  function ValidateJsonPageDocument(doc: Document, keys: seq<string>): (ok: bool)
    ensures ok <==> forall k :: k in keys ==> k in doc
    decreases |keys|
  {
    if keys == [] then true
    else keys[0] in doc && ValidateJsonPageDocument(doc, keys[1..])
  }

  const BadRequest: Outcome := Json(400, Error("Bad request payload"))

  /** `handleSimpleDbReply`: 200 with success, or 500 with the cause's message. */
  function SimpleDbReply(reply: Reply<()>): (r: Outcome)
    ensures reply.Succeeded? <==> r == Json(200, Success)
    ensures reply.Failed? ==> r == Json(500, Error(reply.message))
    ensures r.Responded? && r.status in {200, 500}
  {
    match reply
    case Succeeded(_) => Json(200, Success)
    case Failed(message) => Json(500, Error(message))
  }

  /** `POST /api/pages`: a body with `name` and `markdown` creates the page. */
  function ApiCreateCall(body: Option<Document>): (call: Option<StoreOp>)
    ensures call.Some? <==> body.Some? && "name" in body.value && "markdown" in body.value
    ensures call.Some? ==> call.value == CreatePage(body.value["name"], body.value["markdown"])
  {
    match body
    case None => None
    case Some(doc) =>
      if ValidateJsonPageDocument(doc, ["name", "markdown"]) then Some(CreatePage(doc["name"], doc["markdown"])) else None
  }

  /** How `POST /api/pages` ends: 201 on success, 500 on a store failure, 400 for a payload missing a key. */
  function ApiCreate(body: Option<Document>, reply: Reply<()>): (r: Outcome)
    ensures body.None? ==> r == RoutingFailed(Thrown(MalformedBody))
    ensures body.Some? && ApiCreateCall(body).None? ==> r == BadRequest
    ensures ApiCreateCall(body).Some? && reply.Succeeded? ==> r == Json(201, Success)
    ensures ApiCreateCall(body).Some? && reply.Failed? ==> r == Json(500, Error(reply.message))
  {
    match body
    case None => RoutingFailed(Thrown(MalformedBody))
    case Some(doc) =>
      if !ValidateJsonPageDocument(doc, ["name", "markdown"]) then BadRequest
      else if reply.Succeeded? then Json(201, Success)
      else Json(500, Error(reply.message))
  }

  /** `PUT /api/pages/:id`: the id is parsed first, then the body must hold `markdown`. */
  function ApiUpdateCall(id: Option<string>, body: Option<Document>): (call: Option<StoreOp>)
    ensures call.Some? <==> ParseInt(id).Some? && body.Some? && "markdown" in body.value
    ensures call.Some? ==> call.value == SavePage(ParseInt(id).value, body.value["markdown"])
  {
    match ParseInt(id)
    case None => None
    case Some(n) =>
      match body
      case None => None
      case Some(doc) => if ValidateJsonPageDocument(doc, ["markdown"]) then Some(SavePage(n, doc["markdown"])) else None
  }

  /** How `PUT /api/pages/:id` ends. */
  function ApiUpdate(id: Option<string>, body: Option<Document>, reply: Reply<()>): (r: Outcome)
    ensures ParseInt(id).None? ==> r == RoutingFailed(Thrown(NumberFormat(id)))
    ensures ParseInt(id).Some? && body.None? ==> r == RoutingFailed(Thrown(MalformedBody))
    ensures ParseInt(id).Some? && body.Some? && ApiUpdateCall(id, body).None? ==> r == BadRequest
    ensures ApiUpdateCall(id, body).Some? ==> r == SimpleDbReply(reply)
  {
    match ParseInt(id)
    case None => RoutingFailed(Thrown(NumberFormat(id)))
    case Some(_) =>
      match body
      case None => RoutingFailed(Thrown(MalformedBody))
      case Some(doc) => if ValidateJsonPageDocument(doc, ["markdown"]) then SimpleDbReply(reply) else BadRequest
  }

  /** The token's `canDelete` claim, false when absent. */
  predicate CanDelete(principal: Claims) {
    principal.canDelete.GetOr(false)
  }

  /** `DELETE /api/pages/:id`: only for a principal whose `canDelete` claim is true. */
  function ApiDeleteCall(principal: Claims, id: Option<string>): (call: Option<StoreOp>)
    ensures call.Some? <==> principal.canDelete == Some(true) && ParseInt(id).Some?
    ensures call.Some? ==> call.value == DeletePage(ParseInt(id).value)
  {
    if CanDelete(principal) then PageDeletionCall(id) else None
  }

  /** How `DELETE /api/pages/:id` ends: 401 without the claim. */
  function ApiDelete(principal: Claims, id: Option<string>, reply: Reply<()>): (r: Outcome)
    ensures r == RoutingFailed(Status(401)) <==> principal.canDelete != Some(true)
    ensures principal.canDelete == Some(true) && ParseInt(id).None? ==> r == RoutingFailed(Thrown(NumberFormat(id)))
    ensures ApiDeleteCall(principal, id).Some? ==> r == SimpleDbReply(reply)
  {
    if !CanDelete(principal) then RoutingFailed(Status(401))
    else if ParseInt(id).None? then RoutingFailed(Thrown(NumberFormat(id)))
    else SimpleDbReply(reply)
  }

  /** The malformed payloads of the API are answered without any store call. */
  lemma MalformedPayloadNeverDispatched(id: Option<string>, doc: Document, reply: Reply<()>)
    ensures !("name" in doc && "markdown" in doc) ==>
      ApiCreateCall(Some(doc)).None? && ApiCreate(Some(doc), reply) == BadRequest
    ensures ParseInt(id).Some? && "markdown" !in doc ==>
      ApiUpdateCall(id, Some(doc)).None? && ApiUpdate(id, Some(doc), reply) == BadRequest
  {
  }

  /** `GET /api/pages`: the id and name of each row, in row order. */
  function Summaries(rows: seq<Row>): (pages: seq<PageSummary>)
    ensures |pages| == |rows|
    ensures forall k :: 0 <= k < |rows| ==> pages[k] == PageSummary(rows[k].id, rows[k].name)
  {
    seq(|rows|, k requires 0 <= k < |rows| => PageSummary(rows[k].id, rows[k].name))
  }

  /** How `GET /api/pages` ends. */
  function ApiRoot(reply: Reply<seq<Row>>): (r: Outcome)
    ensures reply.Succeeded? ==> r == Json(200, SuccessPages(Summaries(reply.value)))
    ensures reply.Failed? ==> r == Json(500, Error(reply.message))
  {
    match reply
    case Succeeded(rows) => Json(200, SuccessPages(Summaries(rows)))
    case Failed(message) => Json(500, Error(message))
  }

  /** The page list names every page once, with its id, in increasing id order. */
  lemma ApiRootListsEveryPage(s: Store)
    requires Consistent(s)
    ensures var pages := Summaries(AllRows(s));
      && |pages| == |s.pages|
      && (forall k :: 0 <= k < |pages| ==> pages[k].id in s.pages && s.pages[pages[k].id].name == pages[k].name)
      && (forall k, l :: 0 <= k < l < |pages| ==> pages[k].id < pages[l].id)
      && (forall id :: id in s.pages ==> PageSummary(id, s.pages[id].name) in pages)
  {
    RowCountIsPageCount(s);
    var pages := Summaries(AllRows(s));
    forall id | id in s.pages
      ensures PageSummary(id, s.pages[id].name) in pages
    {
      var k := RowOfPage(s.pages, s.nextId, id);
      assert pages[k] == PageSummary(id, s.pages[id].name);
    }
  }

  /**
   * The status and JSON document `GET /api/pages/:id` computes for a parsed
   * id: the page with its Markdown and HTML, a 404 naming the id, or a 500
   * with the cause's message. `markdown` stands for the Markdown processor.
   */
  function ApiGetPageAnswer(id: int, reply: Reply<Lookup>, markdown: string -> string): (answer: (int, ApiBody))
    ensures answer.0 == 200 <==> reply.Succeeded? && reply.value.Found?
    ensures answer.0 == 404 <==> reply.Succeeded? && reply.value.NotFound?
    ensures answer.0 == 500 <==> reply.Failed?
    ensures answer.0 == 200 ==>
      answer.1 == SuccessPage(PageView(reply.value.name, reply.value.id, reply.value.content, markdown(reply.value.content)))
    ensures answer.0 == 404 ==> answer.1 == Error("There is no page with ID " + IntToString(id))
    ensures answer.0 == 500 ==> answer.1 == Error(reply.message)
  {
    match reply
    case Failed(message) => (500, Error(message))
    case Succeeded(Found(pageId, name, content)) => (200, SuccessPage(PageView(name, pageId, content, markdown(content))))
    case Succeeded(NotFound) => (404, Error("There is no page with ID " + IntToString(id)))
  }

  /** Against the store, the answer is 200 exactly for an id in use, and shows that page. */
  lemma ApiGetPageShowsStoredPage(s: Store, id: int, markdown: string -> string)
    ensures var answer := ApiGetPageAnswer(id, Succeeded(FetchById(s, id)), markdown);
      && (answer.0 == 200 <==> id in s.pages)
      && (answer.0 == 404 <==> id !in s.pages)
      && (id in s.pages ==>
            answer.1 == SuccessPage(PageView(s.pages[id].name, id, s.pages[id].content, markdown(s.pages[id].content))))
  {
  }

  /**
   * How `GET /api/pages/:id` ends: an id that does not parse fails the
   * request; otherwise the status is set but the response is never ended.
   */
  function ApiGetPage(id: Option<string>, reply: Reply<Lookup>, markdown: string -> string): (r: Outcome)
    ensures ParseInt(id).None? ==> r == RoutingFailed(Thrown(NumberFormat(id)))
    ensures ParseInt(id).Some? ==> r == Unanswered(ApiGetPageAnswer(ParseInt(id).value, reply, markdown).0)
  {
    match ParseInt(id)
    case None => RoutingFailed(Thrown(NumberFormat(id)))
    case Some(n) => Unanswered(ApiGetPageAnswer(n, reply, markdown).0)
  }

  /** The subject and issuer of every API token. */
  const TokenOptions: JwtOptions := JwtOptions("Wiki API", "Vert.x")

  /** The claims of a token: the `login` header and the three authorization answers. */
  function TokenClaims(login: Option<string>, canCreate: bool, canDelete: bool, canUpdate: bool): Claims {
    Claims(login, Some(canCreate), Some(canDelete), Some(canUpdate))
  }

  /**
   * `GET /api/token`: a token only when the credentials authenticate and
   * all three authorization checks answer; any failure is a 401.
   */
  function IssueToken(login: Option<string>, authn: Reply<()>, create: Reply<bool>, delete: Reply<bool>,
                      update: Reply<bool>): (r: Outcome)
    ensures r.Responded? <==> authn.Succeeded? && create.Succeeded? && delete.Succeeded? && update.Succeeded?
    ensures r.Responded? ==>
      r == Responded(200, TextHeaders, TokenBody(TokenClaims(login, create.value, delete.value, update.value), TokenOptions))
    ensures !r.Responded? ==> r == RoutingFailed(Status(401))
  {
    if authn.Succeeded? && create.Succeeded? && delete.Succeeded? && update.Succeeded? then
      Responded(200, TextHeaders, TokenBody(TokenClaims(login, create.value, delete.value, update.value), TokenOptions))
    else RoutingFailed(Status(401))
  }

  /**
   * A token carries the `delete` answer it was issued with: the API deletes
   * with it only if the user held the `delete` authority, and refuses with
   * 401 otherwise, without a store call.
   */
  lemma TokenGovernsApiDelete(login: Option<string>, create: Reply<bool>, delete: Reply<bool>, update: Reply<bool>,
                              id: Option<string>, reply: Reply<()>)
    requires IssueToken(login, Succeeded(()), create, delete, update).Responded?
    ensures var principal := IssueToken(login, Succeeded(()), create, delete, update).body.claims;
      && (ApiDeleteCall(principal, id).Some? ==> delete == Succeeded(true))
      && (delete == Succeeded(false) ==>
            ApiDeleteCall(principal, id).None? && ApiDelete(principal, id, reply) == RoutingFailed(Status(401)))
  {
  }

  /** The save action with the call deferred until the check completes. */
  method SecurePageUpdateHandler(ctx: RoutingContext, db: WikiDatabase, f: UpdateForm, authz: Reply<bool>)
    requires ctx.Pristine() && db.Valid()
    modifies ctx, db
    ensures db.Valid()
    ensures db.State() == Effect(old(db.State()), AuthorizedUpdateCall(f, authz))
    ensures ctx.Outcome() == SecurePageUpdate(f, authz, MutationReply(old(db.State()), AuthorizedUpdateCall(f, authz)))
  {
    var creation := f.newPage == Some("yes");
    var id := ParseInt(f.id);
    if !creation && id.None? {
      ctx.Fail(Thrown(NumberFormat(f.id)));
      return;
    }
    var check := CheckAuthorised(if creation then "create" else "update", authz);
    if check.Raised? {
      ctx.Fail(Thrown(check.fault));
      return;
    }
    var reply: Reply<()>;
    if creation {
      reply := db.CreatePage(f.title, f.markdown);
    } else {
      reply := db.SavePage(id.value, f.markdown);
    }
    if reply.Succeeded? {
      Redirect(ctx, "/wiki/" + ValueOf(f.title));
    } else {
      ctx.Fail(Thrown(StoreFault(reply.message)));
    }
  }

  /** `pageDeletionHandler` with access control. */
  method SecurePageDeletionHandler(ctx: RoutingContext, db: WikiDatabase, id: Option<string>, authz: Reply<bool>)
    requires ctx.Pristine() && db.Valid()
    modifies ctx, db
    ensures db.Valid()
    ensures db.State() == Effect(old(db.State()), SecurePageDeletionCall(id, authz))
    ensures ctx.Outcome() == SecurePageDeletion(id, authz, MutationReply(old(db.State()), SecurePageDeletionCall(id, authz)))
  {
    if authz.Succeeded? && authz.value {
      PageDeletionHandler(ctx, db, id);
    } else {
      ctx.SetStatusCode(403);
      ctx.End(NoBody);
    }
  }

  /**
   * `validateJsonPageDocument`: answers 400 when a key is missing and says
   * whether the handler may go on.
   */
  method ValidateDocument(ctx: RoutingContext, doc: Document, keys: seq<string>) returns (ok: bool)
    requires ctx.Pristine()
    modifies ctx
    ensures ok == ValidateJsonPageDocument(doc, keys)
    ensures ok ==> ctx.Pristine()
    ensures !ok ==> ctx.Outcome() == BadRequest
  {
    ok := ValidateJsonPageDocument(doc, keys);
    if !ok {
      SendJson(ctx, 400, Error("Bad request payload"));
    }
  }

  /** `handleSimpleDbReply`. */
  method HandleSimpleDbReply(ctx: RoutingContext, reply: Reply<()>)
    requires ctx.Pristine()
    modifies ctx
    ensures ctx.Outcome() == SimpleDbReply(reply)
  {
    if reply.Succeeded? {
      SendJson(ctx, 200, Success);
    } else {
      SendJson(ctx, 500, Error(reply.message));
    }
  }

  /** `apiCreatePage` on a live store. */
  method ApiCreatePageHandler(ctx: RoutingContext, db: WikiDatabase, body: Option<Document>)
    requires ctx.Pristine() && db.Valid()
    modifies ctx, db
    ensures db.Valid()
    ensures db.State() == Effect(old(db.State()), ApiCreateCall(body))
    ensures ctx.Outcome() == ApiCreate(body, MutationReply(old(db.State()), ApiCreateCall(body)))
  {
    if body.None? {
      ctx.Fail(Thrown(MalformedBody));
      return;
    }
    var page := body.value;
    var ok := ValidateDocument(ctx, page, ["name", "markdown"]);
    if !ok {
      return;
    }
    var reply := db.CreatePage(page["name"], page["markdown"]);
    if reply.Succeeded? {
      SendJson(ctx, 201, Success);
    } else {
      SendJson(ctx, 500, Error(reply.message));
    }
  }

  /** `apiUpdatePage` on a live store. */
  method ApiUpdatePageHandler(ctx: RoutingContext, db: WikiDatabase, id: Option<string>, body: Option<Document>)
    requires ctx.Pristine() && db.Valid()
    modifies ctx, db
    ensures db.Valid()
    ensures db.State() == Effect(old(db.State()), ApiUpdateCall(id, body))
    ensures ctx.Outcome() == ApiUpdate(id, body, MutationReply(old(db.State()), ApiUpdateCall(id, body)))
  {
    var pageId := ParseInt(id);
    if pageId.None? {
      ctx.Fail(Thrown(NumberFormat(id)));
      return;
    }
    if body.None? {
      ctx.Fail(Thrown(MalformedBody));
      return;
    }
    var page := body.value;
    var ok := ValidateDocument(ctx, page, ["markdown"]);
    if !ok {
      return;
    }
    var reply := db.SavePage(pageId.value, page["markdown"]);
    HandleSimpleDbReply(ctx, reply);
  }

  /** `apiDeletePage` on a live store. */
  method ApiDeletePageHandler(ctx: RoutingContext, db: WikiDatabase, principal: Claims, id: Option<string>)
    requires ctx.Pristine() && db.Valid()
    modifies ctx, db
    ensures db.Valid()
    ensures db.State() == Effect(old(db.State()), ApiDeleteCall(principal, id))
    ensures ctx.Outcome() == ApiDelete(principal, id, MutationReply(old(db.State()), ApiDeleteCall(principal, id)))
  {
    if principal.canDelete.GetOr(false) {
      var pageId := ParseInt(id);
      if pageId.None? {
        ctx.Fail(Thrown(NumberFormat(id)));
        return;
      }
      var reply := db.DeletePage(pageId.value);
      HandleSimpleDbReply(ctx, reply);
    } else {
      ctx.Fail(Status(401));
    }
  }

  /** `apiRoot` on a live store. */
  method ApiRootHandler(ctx: RoutingContext, db: WikiDatabase)
    requires ctx.Pristine() && db.Valid()
    modifies ctx
    ensures ctx.Outcome() == ApiRoot(Succeeded(AllRows(db.State())))
  {
    var reply := db.FetchAllPagesData();
    SendJson(ctx, 200, SuccessPages(Summaries(reply.value)));
  }

  /** `apiGetPage` on a live store: sets the status it computed and leaves the response open. */
  method ApiGetPageHandler(ctx: RoutingContext, db: WikiDatabase, id: Option<string>, markdown: string -> string)
    requires ctx.Pristine() && db.Valid()
    modifies ctx
    ensures ctx.Outcome() == ApiGetPage(id, Succeeded(FetchById(db.State(), ParseInt(id).GetOr(0))), markdown)
  {
    var pageId := ParseInt(id);
    if pageId.None? {
      ctx.Fail(Thrown(NumberFormat(id)));
      return;
    }
    var reply := db.FetchPageById(pageId.value);
    if reply.value.Found? {
      ctx.SetStatusCode(200);
    } else {
      ctx.SetStatusCode(404);
    }
  }

  /** The token endpoint. */
  method TokenHandler(ctx: RoutingContext, login: Option<string>, authn: Reply<()>, create: Reply<bool>,
                      delete: Reply<bool>, update: Reply<bool>)
    requires ctx.Pristine()
    modifies ctx
    ensures ctx.Outcome() == IssueToken(login, authn, create, delete, update)
  {
    if authn.Failed? || create.Failed? || delete.Failed? || update.Failed? {
      ctx.Fail(Status(401));
      return;
    }
    var claims := Claims(login, Some(create.value), Some(delete.value), Some(update.value));
    ctx.PutHeader("Content-Type", "text/plain");
    ctx.End(TokenBody(claims, JwtOptions("Wiki API", "Vert.x")));
  }
}
