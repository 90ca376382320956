/**
 * The page store behind the database service. Its SQL implementation is
 * not part of this model; the store is modelled abstractly as a table of
 * pages keyed by an identity column that starts at 0 and never reuses a
 * value, with a unique page name. `Create`, `Save`, `Delete`, `FetchByName`,
 * `FetchById` and `AllRows` are its specification; `WikiDatabase` is the
 * stateful service object proved against it.
 */
module PageStore {
  import opened Wrappers
  import opened JavaLang
  import opened WikiService

  datatype Page = Page(name: string, content: string)

  /** The page table and the next value of its identity column. */
  datatype Store = Store(pages: map<int, Page>, nextId: nat)

  /** A freshly created table. */
  const Empty: Store := Store(map[], 0)

  const NullArgumentMessage: string := "null argument"

  function DuplicateNameMessage(name: string): string {
    "duplicate page name: " + name
  }

  function NoSuchPageMessage(id: int): string {
    "no page with id " + IntToString(id)
  }

  /** Ids were handed out by the identity column; names are unique. */
  ghost predicate Consistent(s: Store) {
    && (forall id :: id in s.pages ==> 0 <= id < s.nextId)
    && (forall i, j :: i in s.pages && j in s.pages && s.pages[i].name == s.pages[j].name ==> i == j)
  }

  predicate NameTaken(s: Store, name: string) {
    exists id :: id in s.pages && s.pages[id].name == name
  }

  /** `createPage(name, content)`: refused for a null argument or a name already in use. */
  function Create(s: Store, name: Option<string>, content: Option<string>): (Store, Reply<()>) {
    if name.None? || content.None? then (s, Failed(NullArgumentMessage))
    else if NameTaken(s, name.value) then (s, Failed(DuplicateNameMessage(name.value)))
    else (Store(s.pages[s.nextId := Page(name.value, content.value)], s.nextId + 1), Succeeded(()))
  }

  /** `savePage(id, content)`: replaces the content of an existing page. */
  function Save(s: Store, id: int, content: Option<string>): (Store, Reply<()>) {
    if content.None? then (s, Failed(NullArgumentMessage))
    else if id !in s.pages then (s, Failed(NoSuchPageMessage(id)))
    else (Store(s.pages[id := Page(s.pages[id].name, content.value)], s.nextId), Succeeded(()))
  }

  /** `deletePage(id)`: removes the page if there is one; deleting a missing id also succeeds. */
  function Delete(s: Store, id: int): (Store, Reply<()>) {
    (Store(s.pages - {id}, s.nextId), Succeeded(()))
  }

  /** `fetchPage(name)`. */
  ghost function FetchByName(s: Store, name: string): (r: Lookup)
    ensures r.NotFound? <==> !NameTaken(s, name)
    ensures r.Found? ==> r.id in s.pages && s.pages[r.id] == Page(name, r.content) && r.name == name
  {
    if NameTaken(s, name) then
      var id :| id in s.pages && s.pages[id].name == name;
      Found(id, name, s.pages[id].content)
    else NotFound
  }

  /** `fetchPageById(id)`. */
  function FetchById(s: Store, id: int): Lookup {
    if id in s.pages then Found(id, s.pages[id].name, s.pages[id].content) else NotFound
  }

  /** The rows of the pages whose ids are below `n`, in id order. */
  function RowsBelow(pages: map<int, Page>, n: nat): (rows: seq<Row>)
    ensures forall k :: 0 <= k < |rows| ==>
      0 <= rows[k].id < n && rows[k].id in pages && pages[rows[k].id] == Page(rows[k].name, rows[k].content)
    ensures forall k, l :: 0 <= k < l < |rows| ==> rows[k].id < rows[l].id
  {
    if n == 0 then []
    else
      var earlier := RowsBelow(pages, n - 1);
      if n - 1 in pages then earlier + [Row(n - 1, pages[n - 1].name, pages[n - 1].content)] else earlier
  }

  /** `fetchAllPagesData()`: every page, in the order the pages were created. */
  function AllRows(s: Store): seq<Row> {
    RowsBelow(s.pages, s.nextId)
  }

  function Names(rows: seq<Row>): (names: seq<string>)
    ensures |names| == |rows|
  {
    seq(|rows|, i requires 0 <= i < |rows| => rows[i].name)
  }

  /** `fetchAllPages()`: the names of all pages. */
  function AllNames(s: Store): seq<string> {
    Names(AllRows(s))
  }

  /** The effect and reply of a mutation; a read leaves the table as it is. */
  function Mutate(s: Store, op: StoreOp): (Store, Reply<()>) {
    match op
    case CreatePage(name, content) => Create(s, name, content)
    case SavePage(id, content) => Save(s, id, content)
    case DeletePage(id) => Delete(s, id)
    case _ => (s, Succeeded(()))
  }

  /** The table after a handler made the call `call`, or no call at all. */
  function Effect(s: Store, call: Option<StoreOp>): Store {
    match call
    case None => s
    case Some(op) => Mutate(s, op).0
  }

  /** The reply the handler receives for the call it made. */
  function MutationReply(s: Store, call: Option<StoreOp>): Reply<()> {
    match call
    case None => Succeeded(())
    case Some(op) => Mutate(s, op).1
  }

  ghost function KeysBelow(pages: map<int, Page>, n: nat): set<int> {
    set id | id in pages && 0 <= id < n
  }

  /** Every page with an id below `n` has a row, so there are as many rows as such pages. */
  lemma {:induction false} RowsBelowCount(pages: map<int, Page>, n: nat)
    ensures |RowsBelow(pages, n)| == |KeysBelow(pages, n)|
  {
    if n > 0 {
      RowsBelowCount(pages, n - 1);
      if n - 1 in pages {
        assert KeysBelow(pages, n) == KeysBelow(pages, n - 1) + {n - 1};
      } else {
        assert KeysBelow(pages, n) == KeysBelow(pages, n - 1);
      }
    }
  }

  /** Every page with an id below `n` has its row, at position `k`. */
  lemma {:induction false} RowOfPage(pages: map<int, Page>, n: nat, id: int) returns (k: nat)
    requires id in pages && 0 <= id < n
    ensures k < |RowsBelow(pages, n)| && RowsBelow(pages, n)[k] == Row(id, pages[id].name, pages[id].content)
    decreases n
  {
    if id == n - 1 {
      k := |RowsBelow(pages, n - 1)|;
    } else {
      k := RowOfPage(pages, n - 1, id);
    }
  }

  /** `fetchAllPages` and `fetchAllPagesData` list every page exactly once. */
  lemma RowCountIsPageCount(s: Store)
    requires Consistent(s)
    ensures |AllRows(s)| == |AllNames(s)| == |s.pages|
  {
    RowsBelowCount(s.pages, s.nextId);
    assert KeysBelow(s.pages, s.nextId) == s.pages.Keys;
  }

  /** Every operation keeps the table consistent. */
  lemma MutateKeepsConsistent(s: Store, op: StoreOp)
    requires Consistent(s)
    ensures Consistent(Mutate(s, op).0)
  {
  }

  /**
   * createPage(name, content) followed by fetchPage(name): found, with a
   * store-assigned id and the same content.
   */
  lemma CreateThenFetch(s: Store, name: string, content: string)
    requires Consistent(s) && !NameTaken(s, name)
    ensures Create(s, Some(name), Some(content)).1 == Succeeded(())
    ensures Consistent(Create(s, Some(name), Some(content)).0)
    ensures FetchByName(Create(s, Some(name), Some(content)).0, name) == Found(s.nextId, name, content)
  {
    var t := Create(s, Some(name), Some(content)).0;
    assert t.pages[s.nextId].name == name;
  }

  /** A second page with a taken name is refused and the table is left as it was. */
  lemma DuplicateCreateFails(s: Store, name: string, content: string)
    requires Consistent(s) && NameTaken(s, name)
    ensures Create(s, Some(name), Some(content)) == (s, Failed(DuplicateNameMessage(name)))
    ensures exists id ::
      (id in s.pages && s.pages[id].name == name
       && forall other :: other in s.pages && s.pages[other].name == name ==> other == id)
  {
    var id :| id in s.pages && s.pages[id].name == name;
    assert forall other :: other in s.pages && s.pages[other].name == name ==> other == id;
  }

  /**
   * savePage(id, content) replaces the content of that page only: the
   * number of pages is unchanged and a fetch shows the new content.
   */
  lemma SaveThenFetch(s: Store, id: int, content: string)
    requires Consistent(s) && id in s.pages
    ensures Save(s, id, Some(content)).1 == Succeeded(())
    ensures Consistent(Save(s, id, Some(content)).0)
    ensures |AllNames(Save(s, id, Some(content)).0)| == |AllNames(s)|
    ensures FetchByName(Save(s, id, Some(content)).0, s.pages[id].name) == Found(id, s.pages[id].name, content)
    ensures forall other :: other != id ==>
      FetchById(Save(s, id, Some(content)).0, other) == FetchById(s, other)
  {
    var t := Save(s, id, Some(content)).0;
    assert t.pages.Keys == s.pages.Keys;
    RowCountIsPageCount(s);
    RowCountIsPageCount(t);
    var r := FetchByName(t, s.pages[id].name);
    assert NameTaken(t, s.pages[id].name) by {
      assert t.pages[id].name == s.pages[id].name;
    }
    assert r.id == id;
  }

  /** After deletePage(id) the page is gone and the others are untouched. */
  lemma DeleteThenFetch(s: Store, id: int)
    requires Consistent(s)
    ensures Delete(s, id).1 == Succeeded(())
    ensures Consistent(Delete(s, id).0)
    ensures FetchById(Delete(s, id).0, id) == NotFound
    ensures id in s.pages ==> FetchByName(Delete(s, id).0, s.pages[id].name) == NotFound
    ensures forall other :: other != id ==> FetchById(Delete(s, id).0, other) == FetchById(s, other)
    ensures s.pages.Keys <= {id} ==> AllNames(Delete(s, id).0) == []
  {
    var t := Delete(s, id).0;
    if s.pages.Keys <= {id} {
      RowCountIsPageCount(t);
      assert t.pages.Keys == {};
    }
  }

  /** Applies `createPage` for each page in turn; true when every call succeeded. */
  function CreateAll(s: Store, batch: seq<Page>): (Store, bool)
    decreases |batch|
  {
    if batch == [] then (s, true)
    else
      var (t, reply) := Create(s, Some(batch[0].name), Some(batch[0].content));
      var (u, ok) := CreateAll(t, batch[1..]);
      (u, reply.Succeeded? && ok)
  }

  predicate DistinctNames(batch: seq<Page>) {
    forall i, j :: 0 <= i < j < |batch| ==> batch[i].name != batch[j].name
  }

  lemma {:induction false} CreateAllFrom(s: Store, batch: seq<Page>)
    requires Consistent(s) && DistinctNames(batch)
    requires forall i :: 0 <= i < |batch| ==> !NameTaken(s, batch[i].name)
    ensures CreateAll(s, batch).1 && Consistent(CreateAll(s, batch).0)
    ensures |CreateAll(s, batch).0.pages| == |s.pages| + |batch|
    decreases |batch|
  {
    if batch != [] {
      var t := Create(s, Some(batch[0].name), Some(batch[0].content)).0;
      assert s.nextId !in s.pages;
      assert t.pages.Keys == s.pages.Keys + {s.nextId};
      CreateThenFetch(s, batch[0].name, batch[0].content);
      CreateAllFrom(t, batch[1..]);
    }
  }

  /**
   * Creating pages with distinct names all succeed and afterwards
   * fetchAllPages lists exactly that many pages, whatever the order of the
   * creations.
   */
  lemma DistinctCreatesAllSucceed(batch: seq<Page>)
    requires DistinctNames(batch)
    ensures CreateAll(Empty, batch).1
    ensures |AllNames(CreateAll(Empty, batch).0)| == |batch|
  {
    CreateAllFrom(Empty, batch);
    RowCountIsPageCount(CreateAll(Empty, batch).0);
  }

  /**
   * On a fresh table the first page gets id 0, and fetchAllPagesData lists
   * the pages in creation order with their names and contents.
   */
  lemma BulkDataInCreationOrder(a: string, contentA: string, b: string, contentB: string)
    requires a != b
    ensures Create(Empty, Some(a), Some(contentA)).1 == Succeeded(())
    ensures FetchByName(Create(Empty, Some(a), Some(contentA)).0, a) == Found(0, a, contentA)
    ensures Create(Create(Empty, Some(a), Some(contentA)).0, Some(b), Some(contentB)).1 == Succeeded(())
    ensures AllRows(Create(Create(Empty, Some(a), Some(contentA)).0, Some(b), Some(contentB)).0)
      == [Row(0, a, contentA), Row(1, b, contentB)]
  {
    CreateThenFetch(Empty, a, contentA);
    var t := Create(Empty, Some(a), Some(contentA)).0;
    assert t == Store(map[0 := Page(a, contentA)], 1);
    assert !NameTaken(t, b);
    var u := Create(t, Some(b), Some(contentB)).0;
    var pages := map[0 := Page(a, contentA), 1 := Page(b, contentB)];
    assert u == Store(pages, 2);
    assert RowsBelow(pages, 0) == [];
    assert RowsBelow(pages, 1) == [Row(0, a, contentA)];
    assert RowsBelow(pages, 2) == [Row(0, a, contentA), Row(1, b, contentB)];
  }

  /**
   * The create / fetch / save / fetchAllPages / delete sequence of the
   * database tests, on a fresh table.
   */
  lemma CrudScenario()
    ensures var (s1, r1) := Create(Empty, Some("Test"), Some("Some content"));
      && r1 == Succeeded(())
      && FetchByName(s1, "Test") == Found(0, "Test", "Some content")
      && var (s2, r2) := Save(s1, 0, Some("Yo!"));
      && r2 == Succeeded(())
      && |AllNames(s2)| == 1
      && FetchByName(s2, "Test") == Found(0, "Test", "Yo!")
      && var (s3, r3) := Delete(s2, 0);
      && r3 == Succeeded(())
      && AllNames(s3) == []
  {
    CreateThenFetch(Empty, "Test", "Some content");
    var s1 := Create(Empty, Some("Test"), Some("Some content")).0;
    SaveThenFetch(s1, 0, "Yo!");
    var s2 := Save(s1, 0, Some("Yo!")).0;
    RowCountIsPageCount(s1);
    DeleteThenFetch(s2, 0);
  }
  /**
   * The service object registered on the event bus: it owns the page table
   * and answers one request at a time.
   */
  class WikiDatabase {
    var pages: map<int, Page>
    var nextId: nat

    function State(): Store
      reads this
    {
      Store(pages, nextId)
    }

    ghost predicate Valid()
      reads this
    {
      Consistent(State())
    }

    constructor ()
      ensures Valid() && State() == Empty
    {
      pages := map[];
      nextId := 0;
    }

    /** Scans the ids handed out so far for a page called `name`. */
    method FindName(name: string) returns (found: Option<int>)
      requires Valid()
      ensures found.None? <==> !NameTaken(State(), name)
      ensures found.Some? ==> found.value in pages && pages[found.value].name == name
    {
      var id := 0;
      while id < nextId
        invariant 0 <= id <= nextId
        invariant forall k :: 0 <= k < id && k in pages ==> pages[k].name != name
      {
        if id in pages && pages[id].name == name {
          return Some(id);
        }
        id := id + 1;
      }
      return None;
    }

    method CreatePage(name: Option<string>, content: Option<string>) returns (reply: Reply<()>)
      requires Valid()
      modifies this
      ensures Valid()
      ensures (State(), reply) == Create(old(State()), name, content)
    {
      if name.None? || content.None? {
        return Failed(NullArgumentMessage);
      }
      var existing := FindName(name.value);
      if existing.Some? {
        return Failed(DuplicateNameMessage(name.value));
      }
      pages := pages[nextId := Page(name.value, content.value)];
      nextId := nextId + 1;
      reply := Succeeded(());
    }

    method SavePage(id: int, content: Option<string>) returns (reply: Reply<()>)
      requires Valid()
      modifies this
      ensures Valid()
      ensures (State(), reply) == Save(old(State()), id, content)
    {
      if content.None? {
        return Failed(NullArgumentMessage);
      }
      if id !in pages {
        return Failed(NoSuchPageMessage(id));
      }
      pages := pages[id := Page(pages[id].name, content.value)];
      reply := Succeeded(());
    }

    method DeletePage(id: int) returns (reply: Reply<()>)
      requires Valid()
      modifies this
      ensures Valid()
      ensures (State(), reply) == Delete(old(State()), id)
    {
      pages := pages - {id};
      reply := Succeeded(());
    }

    /** Performs a mutation requested by a handler. */
    method Perform(op: StoreOp) returns (reply: Reply<()>)
      requires Valid() && IsMutation(op)
      modifies this
      ensures Valid()
      ensures (State(), reply) == Mutate(old(State()), op)
    {
      match op {
        case CreatePage(name, content) => reply := CreatePage(name, content);
        case SavePage(id, content) => reply := SavePage(id, content);
        case DeletePage(id) => reply := DeletePage(id);
      }
    }

    method FetchPage(name: string) returns (reply: Reply<Lookup>)
      requires Valid()
      ensures reply == Succeeded(FetchByName(State(), name))
    {
      var existing := FindName(name);
      if existing.Some? {
        var id := existing.value;
        reply := Succeeded(Found(id, name, pages[id].content));
      } else {
        reply := Succeeded(NotFound);
      }
    }

    method FetchPageById(id: int) returns (reply: Reply<Lookup>)
      ensures reply == Succeeded(FetchById(State(), id))
      ensures reply.value.Found? <==> id in pages
    {
      if id in pages {
        reply := Succeeded(Found(id, pages[id].name, pages[id].content));
      } else {
        reply := Succeeded(NotFound);
      }
    }

    method FetchAllPagesData() returns (reply: Reply<seq<Row>>)
      ensures reply == Succeeded(AllRows(State()))
    {
      var rows: seq<Row> := [];
      var id := 0;
      while id < nextId
        invariant 0 <= id <= nextId
        invariant rows == RowsBelow(pages, id)
      {
        if id in pages {
          rows := rows + [Row(id, pages[id].name, pages[id].content)];
        }
        id := id + 1;
      }
      reply := Succeeded(rows);
    }

    method FetchAllPages() returns (reply: Reply<seq<string>>)
      ensures reply == Succeeded(AllNames(State()))
    {
      var names: seq<string> := [];
      var id := 0;
      while id < nextId
        invariant 0 <= id <= nextId
        invariant names == Names(RowsBelow(pages, id))
      {
        if id in pages {
          names := names + [pages[id].name];
        }
        id := id + 1;
      }
      reply := Succeeded(names);
    }
  }
}
