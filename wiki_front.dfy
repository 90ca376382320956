/**
 * The wiki's interactive front end before access control: rendering a page
 * for editing, saving the edit as a new page or over an existing one,
 * redirecting to a new page, deleting a page and backing the wiki up to the
 * snippet service. Each handler's decisions are functions of the request and
 * of the replies it receives (`...Call` is the store call it makes, if any);
 * the `...Handler` methods perform the same steps on a `RoutingContext` and
 * a `WikiDatabase` and are proved to end as those functions say.
 */
module WikiFront {
  import opened Wrappers
  import opened JavaLang
  import opened WikiService
  import opened PageStore
  import opened Web

  /** The form posted to the save action; each field is a request parameter and may be missing. */
  datatype UpdateForm = UpdateForm(title: Option<string>, newPage: Option<string>, markdown: Option<string>, id: Option<string>)

  /** Only a `newPage` parameter of exactly `yes` asks for a new page. */
  predicate IsCreation(f: UpdateForm) {
    f.newPage == Some("yes")
  }

  /** Where a saved page is shown: `"/wiki/" + title`, with a missing title printed as `null`. */
  function PageLocation(title: Option<string>): string {
    "/wiki/" + ValueOf(title)
  }

  /** The store call of the save action: create or save, or none when the id does not parse. */
  function PageUpdateCall(f: UpdateForm): (call: Option<StoreOp>)
    ensures call.Some? ==> IsMutation(call.value) && !call.value.DeletePage?
    ensures call.Some? && call.value.CreatePage? <==> IsCreation(f)
    ensures IsCreation(f) ==> call == Some(CreatePage(f.title, f.markdown))
    ensures !IsCreation(f) ==>
      match ParseInt(f.id)
      case Some(id) => call == Some(SavePage(id, f.markdown))
      case None => call == None
  {
    if IsCreation(f) then Some(CreatePage(f.title, f.markdown))
    else
      match ParseInt(f.id)
      case Some(id) => Some(SavePage(id, f.markdown))
      case None => None
  }

  /** How the save action ends, given the store's reply to its call. */
  function PageUpdate(f: UpdateForm, reply: Reply<()>): (r: Outcome)
    ensures r.Responded? || r.RoutingFailed?
    ensures r.Responded? <==> PageUpdateCall(f).Some? && reply.Succeeded?
    ensures r.Responded? ==> r == SeeOther(PageLocation(f.title))
    ensures PageUpdateCall(f).None? ==> r == RoutingFailed(Thrown(NumberFormat(f.id)))
    ensures PageUpdateCall(f).Some? && reply.Failed? ==> r == RoutingFailed(Thrown(StoreFault(reply.message)))
  {
    if PageUpdateCall(f).None? then RoutingFailed(Thrown(NumberFormat(f.id)))
    else if reply.Succeeded? then SeeOther(PageLocation(f.title))
    else RoutingFailed(Thrown(StoreFault(reply.message)))
  }

  /** The redirect of the create action: the new page's URL, or the home page for a missing or empty name. */
  function CreateLocation(name: Option<string>): (location: string)
    ensures location == "/" <==> name.None? || name.value == ""
    ensures location != "/" ==> StartsWith(location, "/wiki/") && location[|"/wiki/"|..] == name.value
  {
    if name.None? || name.value == "" then "/" else "/wiki/" + name.value
  }

  /** The text a page that does not exist yet starts with. */
  const EmptyPageMarkdown: string := "# A new page\n\nFeel-free to write in Markdown!\n"

  const PageTemplate: string := "templates/page.ftl"

  /** What the page template is given. */
  datatype PageData = PageData(title: string, id: int, newPage: string, rawContent: string, content: string, timestamp: string)

  /**
   * The template data for the page `page`: a found page is edited in place,
   * a missing one is offered as a new page with id -1 and the default text.
   * `markdown` stands for the Markdown processor, `timestamp` for the clock.
   */
  function PageDataOf(page: string, lookup: Lookup, markdown: string -> string, timestamp: string): (d: PageData)
    ensures d.title == page && d.timestamp == timestamp && d.content == markdown(d.rawContent)
    ensures d.newPage == "no" <==> lookup.Found?
    ensures d.newPage == "yes" <==> lookup.NotFound?
    ensures lookup.Found? ==> d.id == lookup.id && d.rawContent == lookup.content
    ensures lookup.NotFound? ==> d.id == -1 && d.rawContent == EmptyPageMarkdown
  {
    var found := lookup.Found?;
    var rawContent := if found then lookup.content else EmptyPageMarkdown;
    PageData(page, if found then lookup.id else -1, if found then "no" else "yes", rawContent, markdown(rawContent), timestamp)
  }

  /** The six entries the handler puts into the context. */
  function TemplateData(d: PageData): map<string, Value> {
    map["title" := Text(d.title), "id" := Number(d.id), "newPage" := Text(d.newPage),
        "rawContent" := Text(d.rawContent), "content" := Text(d.content), "timestamp" := Text(d.timestamp)]
  }

  /**
   * How rendering the page `page` ends: the template's HTML, or the failure
   * of the store or of the template engine (`render`).
   */
  function PageRendering(page: string, reply: Reply<Lookup>, markdown: string -> string, timestamp: string,
                         render: (string, map<string, Value>) -> Reply<string>): (r: Outcome)
    ensures reply.Failed? ==> r == RoutingFailed(Thrown(StoreFault(reply.message)))
    ensures reply.Succeeded? ==>
      var rendered := render(PageTemplate, TemplateData(PageDataOf(page, reply.value, markdown, timestamp)));
      && (rendered.Succeeded? ==> r == Html(rendered.value))
      && (rendered.Failed? ==> r == RoutingFailed(Thrown(TemplateFault(rendered.message))))
  {
    match reply
    case Failed(message) => RoutingFailed(Thrown(StoreFault(message)))
    case Succeeded(lookup) =>
      match render(PageTemplate, TemplateData(PageDataOf(page, lookup, markdown, timestamp)))
      case Succeeded(html) => Html(html)
      case Failed(message) => RoutingFailed(Thrown(TemplateFault(message)))
  }

  /**
   * The form the page template posts back: the title, `newPage` and id it
   * was rendered with (the id as `Integer.toString` prints it) and the
   * edited text.
   */
  function EditForm(d: PageData, edited: string): UpdateForm {
    UpdateForm(Some(d.title), Some(d.newPage), Some(edited), Some(IntToString(d.id)))
  }

  /**
   * Rendering a page and submitting its form stores the edit under the
   * page's name: a missing page is created, an existing one is saved over
   * by its id, the store accepts the call and the browser is sent back to
   * the page.
   */
  lemma EditRoundTrip(s: Store, page: string, markdown: string -> string, timestamp: string, edited: string)
    requires Consistent(s) && s.nextId <= MaxInt
    ensures var f := EditForm(PageDataOf(page, FetchByName(s, page), markdown, timestamp), edited);
      var call := PageUpdateCall(f);
      && call.Some?
      && (NameTaken(s, page) ==> call.value == SavePage(FetchByName(s, page).id, Some(edited)))
      && (!NameTaken(s, page) ==> call.value == CreatePage(Some(page), Some(edited)))
      && MutationReply(s, call) == Succeeded(())
      && Consistent(Effect(s, call))
      && FetchByName(Effect(s, call), page).Found?
      && FetchByName(Effect(s, call), page).content == edited
      && PageUpdate(f, MutationReply(s, call)) == SeeOther("/wiki/" + page)
  {
    var lookup := FetchByName(s, page);
    var d := PageDataOf(page, lookup, markdown, timestamp);
    var f := EditForm(d, edited);
    if lookup.Found? {
      ParseIntToString(lookup.id);
      assert PageUpdateCall(f) == Some(SavePage(lookup.id, Some(edited)));
      SaveThenFetch(s, lookup.id, edited);
    } else {
      assert PageUpdateCall(f) == Some(CreatePage(Some(page), Some(edited)));
      CreateThenFetch(s, page, edited);
    }
  }

  /**
   * The create action leads to the editor of the named page: the redirect
   * names the page route for exactly that name, and a page not yet in the
   * store is rendered as a new page with the default text.
   */
  lemma CreateLeadsToNewPage(s: Store, name: string, markdown: string -> string, timestamp: string)
    requires name != "" && !NameTaken(s, name)
    ensures CreateLocation(Some(name)) == "/wiki/" + name
    ensures var d := PageDataOf(name, FetchByName(s, name), markdown, timestamp);
      d.newPage == "yes" && d.id == -1 && d.rawContent == EmptyPageMarkdown && d.title == name
  {
  }

  /** The store call of the delete action: none when the id does not parse. */
  function PageDeletionCall(id: Option<string>): (call: Option<StoreOp>)
    ensures call.Some? <==> ParseInt(id).Some?
    ensures call.Some? ==> call.value == DeletePage(ParseInt(id).value)
  {
    match ParseInt(id)
    case Some(n) => Some(DeletePage(n))
    case None => None
  }

  /** How the delete action ends: back to the home page, or the router reports the failure. */
  function PageDeletion(id: Option<string>, reply: Reply<()>): (r: Outcome)
    ensures r.Responded? || r.RoutingFailed?
    ensures r.Responded? <==> PageDeletionCall(id).Some? && reply.Succeeded?
    ensures r.Responded? ==> r == SeeOther("/")
    ensures PageDeletionCall(id).None? ==> r == RoutingFailed(Thrown(NumberFormat(id)))
    ensures PageDeletionCall(id).Some? && reply.Failed? ==> r == RoutingFailed(Thrown(StoreFault(reply.message)))
  {
    if PageDeletionCall(id).None? then RoutingFailed(Thrown(NumberFormat(id)))
    else if reply.Succeeded? then SeeOther("/")
    else RoutingFailed(Thrown(StoreFault(reply.message)))
  }

  /** Deleting a page by the id it is shown with removes it and returns to the home page. */
  lemma DeletionRemovesPage(s: Store, pageId: int)
    requires Consistent(s) && pageId in s.pages && IsInt(pageId)
    ensures var call := PageDeletionCall(Some(IntToString(pageId)));
      && call == Some(DeletePage(pageId))
      && FetchById(Effect(s, call), pageId) == NotFound
      && FetchByName(Effect(s, call), s.pages[pageId].name) == NotFound
      && PageDeletion(Some(IntToString(pageId)), MutationReply(s, call)) == SeeOther("/")
  {
    ParseIntToString(pageId);
    DeleteThenFetch(s, pageId);
  }

  /** A file of the backup snippet. */
  datatype FileEntry = FileEntry(name: string, content: string)

  /** The JSON document posted to the snippet service. */
  datatype BackupPayload = BackupPayload(files: seq<FileEntry>, language: string, title: string, public: bool)

  /** The snippet service's answer: its status code and the `id` field of its body. */
  datatype Upstream = Upstream(status: int, id: Option<string>)

  const SnippetsUrl: string := "https://glot.io/snippets/"

  /** One file per row, named after the page and holding its content, in row order. */
  function Files(rows: seq<Row>): (files: seq<FileEntry>)
    ensures |files| == |rows|
    ensures forall k :: 0 <= k < |rows| ==> files[k] == FileEntry(rows[k].name, rows[k].content)
  {
    seq(|rows|, k requires 0 <= k < |rows| => FileEntry(rows[k].name, rows[k].content))
  }

  /** The backup of `rows`: a public plain-text snippet titled `vertx-wiki-backup`. */
  function BackupOf(rows: seq<Row>): BackupPayload {
    BackupPayload(Files(rows), "plaintext", "vertx-wiki-backup", true)
  }

  /** Fills the files array one row at a time, as the handler's `forEach` does. */
  method BuildBackupPayload(rows: seq<Row>) returns (payload: BackupPayload)
    ensures payload == BackupOf(rows)
    ensures |payload.files| == |rows|
  {
    var files: seq<FileEntry> := [];
    for k := 0 to |rows|
      invariant |files| == k
      invariant forall j :: 0 <= j < k ==> files[j] == FileEntry(rows[j].name, rows[j].content)
    {
      files := files + [FileEntry(rows[k].name, rows[k].content)];
    }
    payload := BackupPayload(files, "plaintext", "vertx-wiki-backup", true);
  }

  /**
   * The backup of the store has exactly one file per page, in creation
   * order, and every page has its file.
   */
  lemma BackupHasEveryPage(s: Store)
    requires Consistent(s)
    ensures |BackupOf(AllRows(s)).files| == |s.pages|
    ensures forall id :: id in s.pages ==>
      FileEntry(s.pages[id].name, s.pages[id].content) in BackupOf(AllRows(s)).files
  {
    RowCountIsPageCount(s);
    forall id | id in s.pages
      ensures FileEntry(s.pages[id].name, s.pages[id].content) in BackupOf(AllRows(s)).files
    {
      var k := RowOfPage(s.pages, s.nextId, id);
      assert BackupOf(AllRows(s)).files[k] == FileEntry(s.pages[id].name, s.pages[id].content);
    }
  }

  /**
   * How the backup ends: the index page with the snippet's URL, a 502 when
   * the service answers with another status, or the router reports the
   * store's or the client's failure. `post` stands for the HTTPS call.
   */
  function Backup(reply: Reply<seq<Row>>, post: BackupPayload -> Reply<Upstream>): (r: Outcome)
    ensures r.ToIndex? || r.RoutingFailed?
    ensures reply.Failed? ==> r == RoutingFailed(Thrown(StoreFault(reply.message)))
    ensures reply.Succeeded? ==>
      var answer := post(BackupOf(reply.value));
      && (answer.Failed? ==> r == RoutingFailed(Thrown(ClientFault(answer.message))))
      && (answer.Succeeded? && answer.value.status == 200 ==>
            r == ToIndex(map["backup_gist_url" := Text(SnippetsUrl + ValueOf(answer.value.id))]))
      && (answer.Succeeded? && answer.value.status != 200 ==> r == RoutingFailed(Status(502)))
  {
    match reply
    case Failed(message) => RoutingFailed(Thrown(StoreFault(message)))
    case Succeeded(rows) =>
      match post(BackupOf(rows))
      case Failed(message) => RoutingFailed(Thrown(ClientFault(message)))
      case Succeeded(response) =>
        if response.status == 200 then ToIndex(map["backup_gist_url" := Text(SnippetsUrl + ValueOf(response.id))])
        else RoutingFailed(Status(502))
  }

  /** The index page is shown only after the snippet service accepted the backup. */
  lemma BackupIndexOnlyOnSuccess(reply: Reply<seq<Row>>, post: BackupPayload -> Reply<Upstream>)
    ensures Backup(reply, post).ToIndex? <==>
      reply.Succeeded? && post(BackupOf(reply.value)).Succeeded? && post(BackupOf(reply.value)).value.status == 200
  {
  }

  /** `pageUpdateHandler` on a live store. */
  method PageUpdateHandler(ctx: RoutingContext, db: WikiDatabase, f: UpdateForm)
    requires ctx.Pristine() && db.Valid()
    modifies ctx, db
    ensures db.Valid()
    ensures db.State() == Effect(old(db.State()), PageUpdateCall(f))
    ensures ctx.Outcome() == PageUpdate(f, MutationReply(old(db.State()), PageUpdateCall(f)))
  {
    var reply: Reply<()>;
    if f.newPage == Some("yes") {
      reply := db.CreatePage(f.title, f.markdown);
    } else {
      var id := ParseInt(f.id);
      if id.None? {
        ctx.Fail(Thrown(NumberFormat(f.id)));
        return;
      }
      reply := db.SavePage(id.value, f.markdown);
    }
    if reply.Succeeded? {
      Redirect(ctx, "/wiki/" + ValueOf(f.title));
    } else {
      ctx.Fail(Thrown(StoreFault(reply.message)));
    }
  }

  /** `pageCreateHandler`: computes the location, then overrides it for a missing or empty name. */
  method PageCreateHandler(ctx: RoutingContext, name: Option<string>)
    requires ctx.Pristine()
    modifies ctx
    ensures ctx.Outcome() == SeeOther(CreateLocation(name))
  {
    var location := "/wiki/" + ValueOf(name);
    if name.None? || |name.value| == 0 {
      location := "/";
    }
    Redirect(ctx, location);
  }

  /** `pageRenderingHandler` on a live store. */
  method PageRenderingHandler(ctx: RoutingContext, db: WikiDatabase, page: string, markdown: string -> string,
                              timestamp: string, render: (string, map<string, Value>) -> Reply<string>)
    requires ctx.Pristine() && db.Valid()
    modifies ctx
    ensures ctx.Outcome() == PageRendering(page, Succeeded(FetchByName(db.State(), page)), markdown, timestamp, render)
  {
    var reply := db.FetchPage(page);
    var lookup := reply.value;
    var found := lookup.Found?;
    var rawContent := if found then lookup.content else EmptyPageMarkdown;
    ctx.Put("title", Text(page));
    ctx.Put("id", Number(if found then lookup.id else -1));
    ctx.Put("newPage", Text(if found then "no" else "yes"));
    ctx.Put("rawContent", Text(rawContent));
    ctx.Put("content", Text(markdown(rawContent)));
    ctx.Put("timestamp", Text(timestamp));
    assert ctx.data == TemplateData(PageDataOf(page, lookup, markdown, timestamp));
    var rendered := render(PageTemplate, ctx.data);
    if rendered.Succeeded? {
      SendHtml(ctx, rendered.value);
    } else {
      ctx.Fail(Thrown(TemplateFault(rendered.message)));
    }
  }

  /** `pageDeletionHandler` on a live store. */
  method PageDeletionHandler(ctx: RoutingContext, db: WikiDatabase, id: Option<string>)
    requires ctx.Pristine() && db.Valid()
    modifies ctx, db
    ensures db.Valid()
    ensures db.State() == Effect(old(db.State()), PageDeletionCall(id))
    ensures ctx.Outcome() == PageDeletion(id, MutationReply(old(db.State()), PageDeletionCall(id)))
  {
    var pageId := ParseInt(id);
    if pageId.None? {
      ctx.Fail(Thrown(NumberFormat(id)));
      return;
    }
    var reply := db.DeletePage(pageId.value);
    Redirect(ctx, "/");
  }

  /** `backupHandler` on a live store. */
  method BackupHandler(ctx: RoutingContext, db: WikiDatabase, post: BackupPayload -> Reply<Upstream>)
    requires ctx.Pristine() && db.Valid()
    modifies ctx
    ensures ctx.Outcome() == Backup(Succeeded(AllRows(db.State())), post)
  {
    var reply := db.FetchAllPagesData();
    var payload := BuildBackupPayload(reply.value);
    var answer := post(payload);
    if answer.Failed? {
      ctx.Fail(Thrown(ClientFault(answer.message)));
    } else if answer.value.status == 200 {
      ctx.Put("backup_gist_url", Text(SnippetsUrl + ValueOf(answer.value.id)));
      ctx.ForwardToIndex();
    } else {
      ctx.Fail(Status(502));
    }
  }
}
