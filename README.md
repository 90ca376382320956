# Vert.x wiki: request dispatch and page store, in Dafny

This project models the decision logic of the Vert.x guide's wiki:

- **HTTP front end without access control** (step 5). The save action chooses between creating a page and saving over one. The create action computes its redirect. The page view gives a page that does not exist yet its default text. The delete action and the backup to the snippet service are modelled too.
- **HTTP front end with access control** (step 8):
  - the route table with its session guard and bearer-token guard;
  - the `create` / `update` / `delete` authority checks of the interactive actions;
  - the JSON API under `/api`: payload validation, the `canDelete` claim, and the mapping of store replies to status codes and JSON bodies;
  - the token endpoint's claims.
- **Database verticle** (step 6): it loads the SQL query catalog from a properties source, resolves the JDBC settings with their defaults, and registers the service only once the service was created.
- **Page store behind the database service.** Its SQL implementation is not part of this model. It is specified abstractly, as a table of pages keyed by an identity column, with the contract the database tests rely on.

The modules:

| module | file | contents |
|---|---|---|
| `Wrappers` | `wrappers.dfy` | `Option` |
| `JavaLang` | `java_lang.dfy` | `Integer.parseInt` / `Integer.valueOf`, `Integer.toString`, `String.valueOf` of a nullable string |
| `WikiService` | `wiki_service.dfy` | the service's operations (`StoreOp`), its replies and its rows |
| `PageStore` | `page_store.dfy` | the store's specification (`Create`, `Save`, `Delete`, `FetchByName`, `FetchById`, `AllRows`) and the `WikiDatabase` class proved against it |
| `DatabaseVerticle` | `database_verticle.dfy` | the query catalog, the JDBC defaults and `start` |
| `Web` | `web.dfy` | how a request ends (`Outcome`) and the mutable `RoutingContext` that handlers drive |
| `WikiFront` | `wiki_front.dfy` | the step 5 handlers |
| `SecureFront` | `secure_front.dfy` | the step 8 handlers |
| `SecureRoutes` | `secure_routes.dfy` | the step 8 route table and which guards a request passes |
| `Scenarios` | `scenarios.dfy` | the request sequences of the tests, replayed on the model |

Each handler is modelled twice:

- **A pure decision.** `XCall(request…)` is the store call the handler makes, if any. `X(request…, reply)` is how the request ends, given the replies the handler receives.
- **An imperative `XHandler` method.** It performs the same steps on a `RoutingContext` and a `WikiDatabase`. It is proved to leave the store as `Effect(old state, XCall(…))` and the context ending as `X(…, reply the store gave)`.

Properties that relate several calls are stated as lemmas against the store's specification. Examples are round trips (render then save, create then fetch), "a refused request leaves the store as it was", and route guarding.

## Model

| member | source | states |
|---|---|---|
| `JavaLang.ParseInt` | step5/src/main/java/io/vertx/wiki/http/HttpServerVerticle.java:141 | A parsed value is a Java `int`. It comes from a non-empty string. A leading `-` gives a value `<= 0` and a leading digit a value `>= 0`. `None` stands for the `NumberFormatException`, for ASCII digits only (see "## Left out"). |
| `JavaLang.ParseIntToString` | step5/src/main/java/io/vertx/wiki/http/HttpServerVerticle.java:157 | For every Java `int` n, parsing `Integer.toString(n)` gives back n. This is how an id rendered into a page comes back in its form. |
| `JavaLang.IntToString` | step8/src/main/java/io/vertx/wiki/http/HttpServerVerticle.java:353 | The numeral is non-empty and starts with `-` exactly for negative numbers. |
| `PageStore.FetchByName` | step8/src/test/java/io/vertx/wiki/database/WikiDatabaseVerticleTest.java:38-41 | `fetchPage(name)` finds a page exactly when some page has that name. The page it finds is stored under the id it reports, with that name and content. |
| `PageStore.RowsBelow` | step8/src/test/java/io/vertx/wiki/database/WikiDatabaseVerticleTest.java:66-76 | Every row is a stored page with its name and content. Rows come in increasing id order, which is creation order. |
| `PageStore.RowCountIsPageCount` | step8/src/test/java/io/vertx/wiki/database/WikiDatabaseVerticleTest.java:44-45 | `fetchAllPages` and `fetchAllPagesData` list exactly as many entries as there are pages. |
| `PageStore.RowOfPage` | step8/src/test/java/io/vertx/wiki/database/WikiDatabaseVerticleTest.java:66-76 | Every page has its row in `fetchAllPagesData`, at the index the lemma returns. |
| `PageStore.MutateKeepsConsistent` | step8/src/test/java/io/vertx/wiki/database/WikiDatabaseVerticleTest.java:37-51 | Create, save and delete keep ids below the identity counter and names unique. |
| `PageStore.CreateThenFetch` | step8/src/test/java/io/vertx/wiki/database/WikiDatabaseVerticleTest.java:37-41 | Creating a page under a free name succeeds. Fetching that name then finds it, with the next id and the same content. |
| `PageStore.DuplicateCreateFails` | step8/src/test/java/io/vertx/wiki/database/WikiDatabaseVerticleTest.java:37 | Creating a page under a taken name fails and leaves the table as it was. Exactly one page holds that name. |
| `PageStore.SaveThenFetch` | step8/src/test/java/io/vertx/wiki/database/WikiDatabaseVerticleTest.java:43-47 | Saving over an existing page succeeds. The page count is unchanged, a fetch shows the new content, and every other id reads as before. |
| `PageStore.DeleteThenFetch` | step8/src/test/java/io/vertx/wiki/database/WikiDatabaseVerticleTest.java:48-50 | After a delete the id and the page's name are not found, and the other pages are untouched. Deleting the last page leaves `fetchAllPages` empty. |
| `PageStore.CreateAllFrom` | step8/src/test/java/io/vertx/wiki/database/WikiDatabaseVerticleTest.java:64-65 | A batch of creations under distinct free names all succeed and add one page each. |
| `PageStore.DistinctCreatesAllSucceed` | step8/src/test/java/io/vertx/wiki/database/WikiDatabaseVerticleTest.java:64-68 | On a fresh table, creations under distinct names all succeed, and `fetchAllPages` then lists that many pages. |
| `PageStore.BulkDataInCreationOrder` | step8/src/test/java/io/vertx/wiki/database/WikiDatabaseVerticleTest.java:63-82 | On a fresh table the first page gets id 0. `fetchAllPagesData` then lists A then B, with their names and contents. |
| `PageStore.CrudScenario` | step8/src/test/java/io/vertx/wiki/database/WikiDatabaseVerticleTest.java:36-60 | The test's sequence holds on a fresh table: create, fetch, save, fetch again (one page, new content), delete, and an empty list. |
| `PageStore.WikiDatabase.constructor` | step8/src/test/java/io/vertx/wiki/database/WikiDatabaseVerticleTest.java:63-68 | A new service starts with an empty, consistent table. |
| `PageStore.WikiDatabase.FindName` | step8/src/test/java/io/vertx/wiki/database/WikiDatabaseVerticleTest.java:38-39 | The scan returns a page with the name exactly when the name is taken. |
| `PageStore.WikiDatabase.CreatePage` | step8/src/test/java/io/vertx/wiki/database/WikiDatabaseVerticleTest.java:37 | The new table and the reply are those of `Create`, and the table stays consistent. |
| `PageStore.WikiDatabase.SavePage` | step8/src/test/java/io/vertx/wiki/database/WikiDatabaseVerticleTest.java:43 | The new table and the reply are those of `Save`, and the table stays consistent. |
| `PageStore.WikiDatabase.DeletePage` | step8/src/test/java/io/vertx/wiki/database/WikiDatabaseVerticleTest.java:48 | The new table and the reply are those of `Delete`, and the table stays consistent. |
| `PageStore.WikiDatabase.Perform` | step8/src/test/java/io/vertx/wiki/database/WikiDatabaseVerticleTest.java:37-51 | Any mutation performs exactly `Mutate`. |
| `PageStore.WikiDatabase.FetchPage` | step8/src/test/java/io/vertx/wiki/database/WikiDatabaseVerticleTest.java:38-41 | The reply is `FetchByName` of the current table. |
| `PageStore.WikiDatabase.FetchPageById` | step8/src/main/java/io/vertx/wiki/http/HttpServerVerticle.java:335-339 | The reply is `FetchById`. It is found exactly when the id is in use. |
| `PageStore.WikiDatabase.FetchAllPagesData` | step8/src/test/java/io/vertx/wiki/database/WikiDatabaseVerticleTest.java:66-76 | The loop collects exactly `AllRows`: every page in id order. |
| `PageStore.WikiDatabase.FetchAllPages` | step8/src/test/java/io/vertx/wiki/database/WikiDatabaseVerticleTest.java:44-50 | The loop collects exactly the names of `AllRows`. |
| `DatabaseVerticle.PropertyKeyIsKebabName` | step6/src/main/java/io/vertx/wiki/database/WikiDatabaseVerticle.java:40-47 | Each of the eight queries is read from the kebab-case form of its constant's name, e.g. `GET_PAGE_BY_ID` from `get-page-by-id`. |
| `DatabaseVerticle.QueriesListed` | step6/src/main/java/io/vertx/wiki/database/WikiDatabaseVerticle.java:40-47 | The eight `SqlQuery` constants are all listed. |
| `DatabaseVerticle.QueriesSource` | step6/src/main/java/io/vertx/wiki/database/WikiDatabaseVerticle.java:29-35 | The queries come from the configured file exactly when `wikidb.sqlqueries.resource.file` is set, and otherwise from `/db-queries.properties`. |
| `DatabaseVerticle.Catalog` | step6/src/main/java/io/vertx/wiki/database/WikiDatabaseVerticle.java:40-47 | Every query has an entry. It is the property of its key, or null (`None`) when the key is missing: nothing validates that the file is complete. |
| `DatabaseVerticle.CatalogPuts` | step6/src/main/java/io/vertx/wiki/database/WikiDatabaseVerticle.java:40-47 | The eight successive `put`s add exactly the catalog to the map, whatever it held before. |
| `DatabaseVerticle.JdbcConfig` | step6/src/main/java/io/vertx/wiki/database/WikiDatabaseVerticle.java:59-62 | Each JDBC setting is the configured value when its key is present, and its default otherwise. |
| `DatabaseVerticle.DefaultJdbcSettings` | step6/src/main/java/io/vertx/wiki/database/WikiDatabaseVerticle.java:59-62 | With nothing configured, the settings are `jdbc:hsqldb:file:db/wiki`, `org.hsqldb.jdbcDriver` and a pool of 30. |
| `DatabaseVerticle.WikiDatabaseVerticle.constructor` | step6/src/main/java/io/vertx/wiki/database/WikiDatabaseVerticle.java:26 | The catalog starts empty, with no client and no registration. |
| `DatabaseVerticle.WikiDatabaseVerticle.LoadSqlQueries` | step6/src/main/java/io/vertx/wiki/database/WikiDatabaseVerticle.java:28-48 | A failed read reports its cause and leaves the catalog untouched. Otherwise the catalog becomes the old map plus `Catalog` of the loaded properties. |
| `DatabaseVerticle.WikiDatabaseVerticle.Start` | step6/src/main/java/io/vertx/wiki/database/WikiDatabaseVerticle.java:52-75 | A failed load fails the start with the read's cause, with no registration, and leaves the catalog and the client as they were. Otherwise the catalog and client are set. The service is registered at `wikidb.queue` exactly when its creation succeeded; otherwise start fails with the creation's cause. |
| `Web.RoutingContext.constructor` | step8/src/main/java/io/vertx/wiki/http/HttpServerVerticle.java:139-141 | A request reaches a handler with status 200, no headers, no body and nothing ended. |
| `Web.RoutingContext.SetStatusCode` | step8/src/main/java/io/vertx/wiki/http/HttpServerVerticle.java:215 | Sets the status and nothing else. |
| `Web.RoutingContext.PutHeader` | step8/src/main/java/io/vertx/wiki/http/HttpServerVerticle.java:216 | Adds one header and nothing else. |
| `Web.RoutingContext.End` | step8/src/main/java/io/vertx/wiki/http/HttpServerVerticle.java:217 | Ends the response with the body. |
| `Web.RoutingContext.Fail` | step8/src/main/java/io/vertx/wiki/http/HttpServerVerticle.java:247 | Hands the failure to the router. |
| `Web.RoutingContext.Put` | step5/src/main/java/io/vertx/wiki/http/HttpServerVerticle.java:103-108 | Adds one template-data entry. |
| `Web.RoutingContext.ForwardToIndex` | step5/src/main/java/io/vertx/wiki/http/HttpServerVerticle.java:194 | Hands the request to the index page. |
| `Web.SendJson` | step8/src/main/java/io/vertx/wiki/http/HttpServerVerticle.java:419-431 | Status, JSON content type, then the document: the request ends as `Json(status, json)`. |
| `Web.Redirect` | step5/src/main/java/io/vertx/wiki/http/HttpServerVerticle.java:129-131 | 303 with `Location` set, and an empty body. |
| `Web.SendHtml` | step5/src/main/java/io/vertx/wiki/http/HttpServerVerticle.java:112-113 | A 200 HTML page holding the rendered text. |
| `WikiFront.PageUpdateCall` | step5/src/main/java/io/vertx/wiki/http/HttpServerVerticle.java:137-142 | `newPage` of exactly `yes` gives `createPage(title, markdown)`. Any other value, or none, gives `savePage(id, markdown)` for a parsable id, and no call when the id does not parse. Deletion is never requested. |
| `WikiFront.PageUpdate` | step5/src/main/java/io/vertx/wiki/http/HttpServerVerticle.java:124-143 | The only response is the 303 to `"/wiki/" + title` (with `null` for a missing title), exactly when a call was made and succeeded. A store failure or an unparsable id fails the request with its cause. |
| `WikiFront.CreateLocation` | step5/src/main/java/io/vertx/wiki/http/HttpServerVerticle.java:145-154 | The location is `/` exactly for a missing or empty name. Otherwise it is `/wiki/` followed by exactly the name. |
| `WikiFront.PageDataOf` | step5/src/main/java/io/vertx/wiki/http/HttpServerVerticle.java:95-108 | `newPage` is `no` exactly when the page was found. A missing page gets id -1 and the default Markdown. The title is the requested name, and `content` is the processed `rawContent`. |
| `WikiFront.PageRendering` | step5/src/main/java/io/vertx/wiki/http/HttpServerVerticle.java:95-122 | The rendered page as HTML, or the router gets the store's or the template engine's failure. The template and its data are fixed by `PageDataOf`. |
| `WikiFront.EditRoundTrip` | step5/src/main/java/io/vertx/wiki/http/HttpServerVerticle.java:95-143 | Rendering a page and submitting its form stores the edit under that name. A missing page is created and an existing one saved over by its id. The store accepts the call, a fetch shows the edit, and the browser goes back to `/wiki/<page>`. |
| `WikiFront.CreateLeadsToNewPage` | step5/src/main/java/io/vertx/wiki/http/HttpServerVerticle.java:145-154 | The create action's redirect names the page. A page not yet stored is then rendered as new, with id -1 and the default text. |
| `WikiFront.PageDeletionCall` | step5/src/main/java/io/vertx/wiki/http/HttpServerVerticle.java:157 | `deletePage` is called exactly when the id parses, with the parsed id. |
| `WikiFront.PageDeletion` | step5/src/main/java/io/vertx/wiki/http/HttpServerVerticle.java:156-166 | 303 to `/` exactly after a successful delete. Otherwise the request fails with the cause. |
| `WikiFront.DeletionRemovesPage` | step5/src/main/java/io/vertx/wiki/http/HttpServerVerticle.java:156-166 | Deleting by the id a page is shown with removes that page, by id and by name, and returns to `/`. |
| `WikiFront.Files` | step5/src/main/java/io/vertx/wiki/http/HttpServerVerticle.java:177-184 | One file entry per row, holding that row's name and content, in row order. |
| `WikiFront.BuildBackupPayload` | step5/src/main/java/io/vertx/wiki/http/HttpServerVerticle.java:171-184 | The `forEach` fills exactly `BackupOf(rows)`: the files in row order, `plaintext`, `vertx-wiki-backup`, public. |
| `WikiFront.BackupHasEveryPage` | step5/src/main/java/io/vertx/wiki/http/HttpServerVerticle.java:169-184 | The backup of the store has exactly one file per page, and every page has its file. |
| `WikiFront.Backup` | step5/src/main/java/io/vertx/wiki/http/HttpServerVerticle.java:168-216 | The outcomes are: upstream 200 → index with `backup_gist_url = "https://glot.io/snippets/" + id`; another status → 502; client error or store failure → the request fails with that cause. |
| `WikiFront.BackupIndexOnlyOnSuccess` | step5/src/main/java/io/vertx/wiki/http/HttpServerVerticle.java:188-194 | The index page is shown exactly when the fetch succeeded and the snippet service answered 200. |
| `WikiFront.PageUpdateHandler` | step5/src/main/java/io/vertx/wiki/http/HttpServerVerticle.java:124-143 | The store ends as `Effect` of `PageUpdateCall`, and the request as `PageUpdate` with the store's own reply. |
| `WikiFront.PageCreateHandler` | step5/src/main/java/io/vertx/wiki/http/HttpServerVerticle.java:145-154 | Assigns the location, then overrides it, and ends with the 303 to `CreateLocation(name)`. The store is not touched. |
| `WikiFront.PageRenderingHandler` | step5/src/main/java/io/vertx/wiki/http/HttpServerVerticle.java:95-122 | The six `put`s build exactly the template data of `PageDataOf`, and the request ends as `PageRendering` for the store's page. |
| `WikiFront.PageDeletionHandler` | step5/src/main/java/io/vertx/wiki/http/HttpServerVerticle.java:156-166 | The store ends as `Effect` of `PageDeletionCall`, and the request as `PageDeletion`. |
| `WikiFront.BackupHandler` | step5/src/main/java/io/vertx/wiki/http/HttpServerVerticle.java:168-216 | The request ends as `Backup` of the store's rows. |
| `SecureRoutes.MatchingHas` | step8/src/main/java/io/vertx/wiki/http/HttpServerVerticle.java:70-110 | A handler runs for a request exactly when one of its routes matches the verb and path. |
| `SecureRoutes.ApiPath` | step8/src/main/java/io/vertx/wiki/http/HttpServerVerticle.java:133 | The API router sees a request exactly when its path starts with `/api/`. The path it sees is what follows `/api`. |
| `SecureRoutes.FiltersGuard` | step8/src/main/java/io/vertx/wiki/http/HttpServerVerticle.java:74-77 | The main router's filters run the redirect-to-login guard exactly for `/`, `/wiki/…` and `/action/…`. |
| `SecureRoutes.SessionGuardedPaths` | step8/src/main/java/io/vertx/wiki/http/HttpServerVerticle.java:70-110 | Over the whole chain, including the API router, the redirect-to-login guard runs exactly for `/`, `/wiki/…` and `/action/…`. |
| `SecureRoutes.EndpointsOnGuardedPaths` | step8/src/main/java/io/vertx/wiki/http/HttpServerVerticle.java:79-84 | The index, page, save, create, delete and backup endpoints are reached only on guarded paths. |
| `SecureRoutes.InteractiveEndpointsNeedSession` | step8/src/main/java/io/vertx/wiki/http/HttpServerVerticle.java:74-84 | Every interactive endpoint a request reaches runs after the redirect-to-login guard. |
| `SecureRoutes.LoginIsOpen` | step8/src/main/java/io/vertx/wiki/http/HttpServerVerticle.java:85-86 | `GET /login` reaches the login page and `POST /login-auth` the form login, and neither passes the session guard. |
| `SecureRoutes.InApiChain` | step8/src/main/java/io/vertx/wiki/http/HttpServerVerticle.java:104-111 | API endpoints and the token endpoint are reached only through the API router mounted at `/api`. |
| `SecureRoutes.ApiEndpointPaths` | step8/src/main/java/io/vertx/wiki/http/HttpServerVerticle.java:104-111 | Below the mount point, the API endpoints sit under `/pages` and the token endpoint on `/token` exactly. |
| `SecureRoutes.ApiEndpointsNeedToken` | step8/src/main/java/io/vertx/wiki/http/HttpServerVerticle.java:102-111 | Every API endpoint runs after the bearer-token guard, on a path where the guard demands a token. The token endpoint is reached only at `/api/token`, the path the guard lets through. |
| `SecureRoutes.ApiPathsUseTokens` | step8/src/main/java/io/vertx/wiki/http/HttpServerVerticle.java:102 | Requests under `/api/` never meet the session guard and always pass the bearer-token guard. |
| `SecureFront.RequiredAuthority` | step8/src/main/java/io/vertx/wiki/http/HttpServerVerticle.java:210-212 | `create` exactly when `newPage` is `yes`, and `update` exactly otherwise. |
| `SecureFront.CheckAuthorised` | step8/src/main/java/io/vertx/wiki/http/HttpServerVerticle.java:221-225 | Completes exactly when the check answered `true`. A `false` raises the unauthorized error naming the authority; a failed check raises its cause. |
| `SecureFront.AuthorizedUpdateCall` | step8/src/main/java/io/vertx/wiki/http/HttpServerVerticle.java:207-219 | Corrected save action: a store call only after the check answered `true`, and then the step 5 call. |
| `SecureFront.SecurePageUpdate` | step8/src/main/java/io/vertx/wiki/http/HttpServerVerticle.java:207-219 | The id parse fails first. Then the check's error, then the store's, ends the request. The 303 to the page comes exactly when the check and the store call both succeed. |
| `SecureFront.UnauthorizedUpdateReachesStore` | step8/src/main/java/io/vertx/wiki/http/HttpServerVerticle.java:212-213 | As written: a user refused `update` who posts an edit of page 0 gets the unauthorized error, but the page's content is already replaced. |
| `SecureFront.RefusedUpdateLeavesStore` | step8/src/main/java/io/vertx/wiki/http/HttpServerVerticle.java:207-219 | Corrected: a refused or failed check leaves the store as it was, and the request fails. |
| `SecureFront.SecurePageDeletionCall` | step8/src/main/java/io/vertx/wiki/http/HttpServerVerticle.java:239-241 | `deletePage` is called exactly when the `delete` check succeeded with `true` and the id parses. |
| `SecureFront.SecurePageDeletion` | step8/src/main/java/io/vertx/wiki/http/HttpServerVerticle.java:238-254 | 403 exactly when the user is not authorized. The 303 to `/` comes exactly after an authorized, successful delete. |
| `SecureFront.SecureDeletionEffect` | step8/src/main/java/io/vertx/wiki/http/HttpServerVerticle.java:238-254 | A refused delete leaves the store as it was. An authorized one removes the page. |
| `SecureFront.ValidateJsonPageDocument` | step8/src/main/java/io/vertx/wiki/http/HttpServerVerticle.java:406-407 | Accepts exactly when every expected key is present. |
| `SecureFront.SimpleDbReply` | step8/src/main/java/io/vertx/wiki/http/HttpServerVerticle.java:419-431 | 200 `{success: true}` exactly on success, and 500 with the cause's message otherwise. |
| `SecureFront.ApiCreateCall` | step8/src/main/java/io/vertx/wiki/http/HttpServerVerticle.java:364-369 | `createPage(name, markdown)` is called exactly when the body has both keys. No capability is checked. |
| `SecureFront.ApiCreate` | step8/src/main/java/io/vertx/wiki/http/HttpServerVerticle.java:364-382 | A missing body fails. A body missing a key gets 400 `Bad request payload`. Success gets 201, and a store failure (a duplicate name included) gets 500 with the cause. |
| `SecureFront.ApiUpdateCall` | step8/src/main/java/io/vertx/wiki/http/HttpServerVerticle.java:384-390 | `savePage(id, markdown)` is called exactly when the id parses and the body has `markdown`. |
| `SecureFront.ApiUpdate` | step8/src/main/java/io/vertx/wiki/http/HttpServerVerticle.java:384-393 | The id parse fails first, then a missing body, then 400 for a missing key. A dispatched call ends as `handleSimpleDbReply`. |
| `SecureFront.ApiDeleteCall` | step8/src/main/java/io/vertx/wiki/http/HttpServerVerticle.java:395-400 | `deletePage` is called exactly when the `canDelete` claim is `true` and the id parses. An absent claim counts as false. |
| `SecureFront.ApiDelete` | step8/src/main/java/io/vertx/wiki/http/HttpServerVerticle.java:395-404 | 401 exactly when the claim is not `true`. Otherwise an unparsable id fails, and a dispatched call ends as `handleSimpleDbReply`. |
| `SecureFront.MalformedPayloadNeverDispatched` | step8/src/main/java/io/vertx/wiki/http/HttpServerVerticle.java:364-393 | A create body without `name` and `markdown`, or an update body without `markdown`, gets 400 with no store call. |
| `SecureFront.Summaries` | step8/src/main/java/io/vertx/wiki/http/HttpServerVerticle.java:310-315 | One `{id, name}` per row, in row order. |
| `SecureFront.ApiRoot` | step8/src/main/java/io/vertx/wiki/http/HttpServerVerticle.java:306-331 | 200 with the summaries on success, and 500 with the cause otherwise. |
| `SecureFront.ApiRootListsEveryPage` | step8/src/main/java/io/vertx/wiki/http/HttpServerVerticle.java:306-321 | Against the store, the list names every page once, with its id, in increasing id order. |
| `SecureFront.ApiGetPageAnswer` | step8/src/main/java/io/vertx/wiki/http/HttpServerVerticle.java:335-361 | 200 with `{name, id, markdown, html}` exactly when found. 404 `There is no page with ID <id>` exactly when not found. 500 with the cause exactly on failure. |
| `SecureFront.ApiGetPageShowsStoredPage` | step8/src/main/java/io/vertx/wiki/http/HttpServerVerticle.java:335-354 | Against the store the answer is 200 exactly for an id in use, and it shows that page. It is 404 exactly otherwise. |
| `SecureFront.ApiGetPage` | step8/src/main/java/io/vertx/wiki/http/HttpServerVerticle.java:333-362 | An unparsable id fails. Otherwise the status of `ApiGetPageAnswer` is set and the response is left open. |
| `SecureFront.IssueToken` | step8/src/main/java/io/vertx/wiki/http/HttpServerVerticle.java:111-131 | A token exactly when authentication and all three checks succeed. It carries the `login` header and the three answers, with subject `Wiki API` and issuer `Vert.x`, as `text/plain`. Any failure gets 401. |
| `SecureFront.TokenGovernsApiDelete` | step8/src/main/java/io/vertx/wiki/http/HttpServerVerticle.java:111-131 | A token lets the API delete only if the user held `delete`. Without it the delete gets 401 with no store call. |
| `SecureFront.SecurePageUpdateHandler` | step8/src/main/java/io/vertx/wiki/http/HttpServerVerticle.java:207-219 | Corrected handler: the store ends as `Effect` of `AuthorizedUpdateCall`, and the request as `SecurePageUpdate`. |
| `SecureFront.SecurePageDeletionHandler` | step8/src/main/java/io/vertx/wiki/http/HttpServerVerticle.java:238-254 | The store ends as `Effect` of `SecurePageDeletionCall`, and the request as `SecurePageDeletion`. |
| `SecureFront.ValidateDocument` | step8/src/main/java/io/vertx/wiki/http/HttpServerVerticle.java:406-417 | Returns the validation verdict. The response is untouched when it passes, and the 400 answer is written when it fails. |
| `SecureFront.HandleSimpleDbReply` | step8/src/main/java/io/vertx/wiki/http/HttpServerVerticle.java:419-431 | The request ends as `SimpleDbReply`. |
| `SecureFront.ApiCreatePageHandler` | step8/src/main/java/io/vertx/wiki/http/HttpServerVerticle.java:364-382 | The store ends as `Effect` of `ApiCreateCall`, and the request as `ApiCreate` with the store's reply. |
| `SecureFront.ApiUpdatePageHandler` | step8/src/main/java/io/vertx/wiki/http/HttpServerVerticle.java:384-393 | The store ends as `Effect` of `ApiUpdateCall`, and the request as `ApiUpdate`. |
| `SecureFront.ApiDeletePageHandler` | step8/src/main/java/io/vertx/wiki/http/HttpServerVerticle.java:395-404 | The store ends as `Effect` of `ApiDeleteCall`, and the request as `ApiDelete`. |
| `SecureFront.ApiRootHandler` | step8/src/main/java/io/vertx/wiki/http/HttpServerVerticle.java:306-331 | The request ends as `ApiRoot` of the store's rows. |
| `SecureFront.ApiGetPageHandler` | step8/src/main/java/io/vertx/wiki/http/HttpServerVerticle.java:333-362 | The request ends as `ApiGetPage` for the store's page. |
| `SecureFront.TokenHandler` | step8/src/main/java/io/vertx/wiki/http/HttpServerVerticle.java:111-131 | The request ends as `IssueToken`. |
| `Scenarios.ApiCrudScenario` | step7/src/test/java/io/vertx/wiki/http/ApiTest.java:60-154 | With a token for a user holding every authority, on a fresh table: creating a page answers 201, and the list then holds only that page with id 0. Updating it with a body holding only `markdown` (the handler reads no other key) answers 200, and the fetch shows the edit. Deleting it answers 200 and empties the table. |
| `Scenarios.RefusedApiDeleteScenario` | step8/src/main/java/io/vertx/wiki/http/HttpServerVerticle.java:395-404 | A token issued without the `delete` authority gets 401 on delete, and the table is unchanged. |
| `Scenarios.BackupOfTwoPages` | step8/src/test/java/io/vertx/wiki/database/WikiDatabaseVerticleTest.java:63-82 | After creating A then B on a fresh table, the backup payload holds their two files in that order. |

## Left out

- `JavaLang.ParseInt`: accepts only the ASCII digits `0`-`9`. Java's `Integer.parseInt` reads each character with `Character.digit`, which also accepts every other Unicode decimal digit (Arabic-Indic, full-width, …). For such an id the model reports a parse failure where Java parses a number. The same gap holds for every member that parses an id through it: `PageUpdateCall`, `PageDeletionCall`, `SecurePageDeletionCall`, `ApiUpdateCall`, `ApiDeleteCall`, `ApiGetPage`. Unicode digit classes are not modelled.
- `SecurePageDeletion`: treats the `NumberFormatException` of an authorized request with an unparsable id (step8/src/main/java/io/vertx/wiki/http/HttpServerVerticle.java:241) as synchronous. It is thrown inside the `isAuthorized` callback, and the model ends the request as a routing failure, as the router's try/catch would. That holds when the answer is already cached and the callback runs at once. When the authorization provider answers later, nothing catches the throw and the response is left unanswered. The user object's permission cache is not part of this model. `SecurePageDeletionHandler` inherits this.
- Server plumbing is not modelled: TLS, the cookie, body, session and user-session filters, and sub-router mounting. It appears only as the route table in `SecureRoutes`. Matching a route is modelled as: exact path, path prefix (for `/wiki/*`), and one path parameter with no `/` in it (`/wiki/:page`, `/pages/:id`).
- Login, logout and the index page are not modelled beyond their routes. `loginHandler`, `indexHandler` and the logout lambda only render templates or clear the session. The step 8 `indexHandler` is a `flatMap` that nothing subscribes to.
- The bearer-token guard's skip path is modelled as a prefix of the request path (`/api/token`). JWT signing and verification, and JDBC password authentication, become given replies (`authn`, `authz`, the `Claims` of a verified token).
- Markdown rendering (`markdown`), the template engine (`render`), the clock (`timestamp`), the properties loader (`read`), service creation (`create`) and the HTTPS call to the snippet service (`post`) are parameters of the model.
- The event bus, the service proxy, callbacks and their scheduling are left out. Each handler receives one reply per store call, in program order.
- The `onError` helper that step 8's save action reports errors to is not part of this model. It is modelled as failing the request with the error.
- `SecureFront.ApiGetPage`: the handler sets a status and builds a JSON body but never ends the response. The model records the status and leaves the request unanswered (`Unanswered`); the computed body is stated by `ApiGetPageAnswer`.
- The imperative handlers run against `WikiDatabase`, whose fetches and deletes always succeed. Store failure paths are covered by the pure functions (`PageUpdate`, `PageDeletion`, `ApiRoot`, …), which take any reply.
- The page store's SQL implementation is not part of this model. Its specification follows the database tests. Further choices of the model:
  - a null argument is refused;
  - saving over an unknown id fails;
  - deleting an unknown id succeeds;
  - `fetchAllPages` lists names in id order rather than in SQL order;
  - the store's error texts are the model's own.
- JSON is modelled only as far as the handlers read it. A body is a map from keys to string-or-null. A non-string `markdown` or `name`, a non-boolean `canDelete` claim, and the `success` field's rendering are not modelled. A request body that is not JSON becomes `MalformedBody`.
- `WikiFront.BackupHandler`: the payload is built as a value. The model does not capture that the `files` array is shared by the payload object and filled in place. A 200 answer from the snippet service with no body (a null pointer in the source) is not modelled.
- `WikiFront.EditRoundTrip` assumes the page template posts back `title`, `newPage` and the id as `Integer.toString` prints it. The template itself, and FreeMarker's number formatting, are not part of this model.
- Process bootstrap, build files and the browser client are not modelled.

## Findings

| source | as written | input that shows it | evidently intended | confidence | as-written member | corrected member |
|---|---|---|---|---|---|---|
| step8/src/main/java/io/vertx/wiki/http/HttpServerVerticle.java:212-213 | The store call is evaluated as the argument of `andThen`. The Rx wrapper (step9/src/main/java/io/vertx/wiki/database/reactivex/WikiDatabaseService.java:33-43) sends it to the service when the `Completable` is built. So the save or create happens before, and regardless of, the authorization check. | A user without `update` posts `title=Home, newPage=no, markdown=defaced, id=0` while page 0 is `Home`/`welcome`. The answer is the unauthorized error, yet page 0 now reads `defaced`. | The store call is made only after `checkAuthorised` completes, e.g. `andThen(Completable.defer(...))`. A refused user then leaves the store unchanged. | not executed | `SecureFront.UnauthorizedUpdateReachesStore` | `SecureFront.RefusedUpdateLeavesStore` |
