/**
 * Request sequences of the wiki's tests, replayed on the model: the JSON
 * API's create / list / update / delete round on a fresh table, a delete
 * refused for a token without the `delete` authority, and the backup of a
 * two-page wiki.
 */
module Scenarios {
  import opened Wrappers
  import opened JavaLang
  import opened WikiService
  import opened PageStore
  import opened Web
  import opened WikiFront
  import opened SecureFront

  /**
   * With a token for a user holding every authority, creating a page answers
   * 201, the page list then holds that page alone with id 0, updating it
   * answers 200, and deleting it answers 200 and empties the table.
   */
  lemma ApiCrudScenario(name: string, markdown: string, edited: string)
    ensures var token := IssueToken(Some("foo"), Succeeded(()), Succeeded(true), Succeeded(true), Succeeded(true));
      && token.Responded? && token.status == 200
      && var principal := token.body.claims;
      && var created := Some(map["name" := Some(name), "markdown" := Some(markdown)]);
      && var s1 := Effect(Empty, ApiCreateCall(created));
      && ApiCreate(created, MutationReply(Empty, ApiCreateCall(created))) == Json(201, Success)
      && ApiRoot(Succeeded(AllRows(s1))) == Json(200, SuccessPages([PageSummary(0, name)]))
      && var update := Some(map["markdown" := Some(edited)]);
      && var s2 := Effect(s1, ApiUpdateCall(Some("0"), update));
      && ApiUpdate(Some("0"), update, MutationReply(s1, ApiUpdateCall(Some("0"), update))) == Json(200, Success)
      && FetchById(s2, 0) == Found(0, name, edited)
      && var s3 := Effect(s2, ApiDeleteCall(principal, Some("0")));
      && ApiDelete(principal, Some("0"), MutationReply(s2, ApiDeleteCall(principal, Some("0")))) == Json(200, Success)
      && s3.pages == map[]
  {
    ParseIntToString(0);
    assert IntToString(0) == "0";
    var created: Document := map["name" := Some(name), "markdown" := Some(markdown)];
    var s1 := Store(map[0 := Page(name, markdown)], 1);
    assert ApiCreateCall(Some(created)) == Some(CreatePage(Some(name), Some(markdown)));
    assert Effect(Empty, ApiCreateCall(Some(created))) == s1;
    assert RowsBelow(s1.pages, 0) == [];
    assert AllRows(s1) == [Row(0, name, markdown)];
    assert Summaries(AllRows(s1)) == [PageSummary(0, name)];
    var update: Document := map["markdown" := Some(edited)];
    assert ApiUpdateCall(Some("0"), Some(update)) == Some(SavePage(0, Some(edited)));
    var s2 := Store(map[0 := Page(name, edited)], 1);
    assert Effect(s1, ApiUpdateCall(Some("0"), Some(update))) == s2;
    assert MutationReply(s1, ApiUpdateCall(Some("0"), Some(update))) == Succeeded(());
    var principal := TokenClaims(Some("foo"), true, true, true);
    assert ApiDeleteCall(principal, Some("0")) == Some(DeletePage(0));
    assert MutationReply(s2, Some(DeletePage(0))) == Succeeded(());
    assert Effect(s2, Some(DeletePage(0))).pages == map[];
  }

  /**
   * A token issued to a user without the `delete` authority is refused with
   * 401 on `DELETE /api/pages/:id`, and the table is left as it was.
   */
  lemma RefusedApiDeleteScenario(s: Store, id: Option<string>)
    ensures var token := IssueToken(Some("bar"), Succeeded(()), Succeeded(true), Succeeded(false), Succeeded(true));
      && token.Responded?
      && var principal := token.body.claims;
      && ApiDelete(principal, id, MutationReply(s, ApiDeleteCall(principal, id))) == RoutingFailed(Status(401))
      && Effect(s, ApiDeleteCall(principal, id)) == s
  {
    var principal := TokenClaims(Some("bar"), true, false, true);
    TokenGovernsApiDelete(Some("bar"), Succeeded(true), Succeeded(false), Succeeded(true), id,
      MutationReply(s, ApiDeleteCall(principal, id)));
  }

  /**
   * After two pages are created on a fresh table, the backup posted to the
   * snippet service holds one file per page, in creation order.
   */
  lemma BackupOfTwoPages(a: string, contentA: string, b: string, contentB: string)
    requires a != b
    ensures var s := Create(Create(Empty, Some(a), Some(contentA)).0, Some(b), Some(contentB)).0;
      BackupOf(AllRows(s)) ==
        BackupPayload([FileEntry(a, contentA), FileEntry(b, contentB)], "plaintext", "vertx-wiki-backup", true)
  {
    BulkDataInCreationOrder(a, contentA, b, contentB);
    var rows := [Row(0, a, contentA), Row(1, b, contentB)];
    assert Files(rows) == [FileEntry(a, contentA), FileEntry(b, contentB)];
  }
}
