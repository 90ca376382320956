/**
 * The database verticle's start-up: it loads the SQL query catalog from a
 * properties source, resolves the JDBC settings with their defaults, and
 * registers the database service on the event bus only once the service
 * was created.
 */
module DatabaseVerticle {
  import opened Wrappers
  import WikiService

  /** The eight `SqlQuery` constants, in the order the catalog is filled. */
  datatype SqlQuery =
    | CreatePagesTable | AllPages | GetPage | CreatePage
    | SavePage | DeletePage | AllPagesData | GetPageById

  const Queries: seq<SqlQuery> :=
    [CreatePagesTable, AllPages, GetPage, CreatePage, SavePage, DeletePage, AllPagesData, GetPageById]

  /** The Java name of each constant. */
  function ConstantName(q: SqlQuery): string {
    match q
    case CreatePagesTable => "CREATE_PAGES_TABLE"
    case AllPages => "ALL_PAGES"
    case GetPage => "GET_PAGE"
    case CreatePage => "CREATE_PAGE"
    case SavePage => "SAVE_PAGE"
    case DeletePage => "DELETE_PAGE"
    case AllPagesData => "ALL_PAGES_DATA"
    case GetPageById => "GET_PAGE_BY_ID"
  }

  /** The property each constant is read from. */
  function PropertyKey(q: SqlQuery): string {
    match q
    case CreatePagesTable => "create-pages-table"
    case AllPages => "all-pages"
    case GetPage => "get-page"
    case CreatePage => "create-page"
    case SavePage => "save-page"
    case DeletePage => "delete-page"
    case AllPagesData => "all-pages-data"
    case GetPageById => "get-page-by-id"
  }

  function KebabChar(c: char): char {
    if c == '_' then '-' else if 'A' <= c <= 'Z' then (c as int - 'A' as int + 'a' as int) as char else c
  }

  /** Lower case, with `-` for `_`: `GET_PAGE_BY_ID` becomes `get-page-by-id`. */
  function KebabCase(s: string): string {
    seq(|s|, i requires 0 <= i < |s| => KebabChar(s[i]))
  }

  /** Each query is read from the kebab-case form of its constant's name. */
  lemma PropertyKeyIsKebabName(q: SqlQuery)
    ensures PropertyKey(q) == KebabCase(ConstantName(q))
  {
    match q {
      case CreatePagesTable => assert KebabCase("CREATE_PAGES_TABLE") == "create-pages-table";
      case CreatePage => assert KebabCase("CREATE_PAGE") == "create-page";
      case AllPages => assert KebabCase("ALL_PAGES") == "all-pages";
      case GetPage => assert KebabCase("GET_PAGE") == "get-page";
      case SavePage => assert KebabCase("SAVE_PAGE") == "save-page";
      case DeletePage => assert KebabCase("DELETE_PAGE") == "delete-page";
      case AllPagesData => assert KebabCase("ALL_PAGES_DATA") == "all-pages-data";
      case GetPageById => assert KebabCase("GET_PAGE_BY_ID") == "get-page-by-id";
    }
  }

  /** The list names every constant. */
  lemma QueriesListed()
    ensures forall q: SqlQuery :: q in Queries
  {
    forall q: SqlQuery ensures q in Queries {
      match q {
        case CreatePagesTable =>
        case AllPages =>
        case GetPage =>
        case CreatePage =>
        case SavePage =>
        case DeletePage =>
        case AllPagesData =>
        case GetPageById =>
      }
    }
  }

  /** A loaded `java.util.Properties`. */
  type Properties = map<string, string>

  /** `Properties.getProperty(key)`: null when the key is missing. */
  function GetProperty(props: Properties, key: string): Option<string> {
    if key in props then Some(props[key]) else None
  }

  /** The verticle's configuration: its string-valued and integer-valued keys. */
  datatype Config = Config(strings: map<string, string>, ints: map<string, int>)

  const SqlQueriesFileKey: string := "wikidb.sqlqueries.resource.file"
  const JdbcUrlKey: string := "wikidb.jdbc.url"
  const JdbcDriverKey: string := "wikidb.jdbc.driver"
  const JdbcMaxPoolSizeKey: string := "wikidb.jdbc.max_pool_size"
  const WikiDbQueue: string := "wikidb.queue"

  const DefaultQueriesResource: string := "/db-queries.properties"
  const DefaultJdbcUrl: string := "jdbc:hsqldb:file:db/wiki"
  const DefaultJdbcDriver: string := "org.hsqldb.jdbcDriver"
  const DefaultMaxPoolSize: int := 30

  /** Where the queries are read from: a file, or a class-path resource. */
  datatype QuerySource = QueriesFile(path: string) | ClasspathResource(resource: string)

  /** The configured queries file, else the bundled `/db-queries.properties`. */
  function QueriesSource(config: Config): (r: QuerySource)
    ensures r.QueriesFile? <==> SqlQueriesFileKey in config.strings
    ensures r.QueriesFile? ==> r.path == config.strings[SqlQueriesFileKey]
    ensures r.ClasspathResource? ==> r.resource == DefaultQueriesResource
  {
    if SqlQueriesFileKey in config.strings then QueriesFile(config.strings[SqlQueriesFileKey])
    else ClasspathResource(DefaultQueriesResource)
  }

  /** The catalog a loaded properties source yields: one entry per query, nothing else. */
  function Catalog(props: Properties): (catalog: map<SqlQuery, Option<string>>)
    ensures forall q: SqlQuery :: q in catalog && catalog[q] == GetProperty(props, PropertyKey(q))
  {
    var catalog := map q: SqlQuery | q in Queries :: GetProperty(props, PropertyKey(q));
    QueriesListed();
    catalog
  }

  /** Putting the queries one by one into a map adds the catalog to it. */
  lemma CatalogPuts(m: map<SqlQuery, Option<string>>, props: Properties)
    ensures m + Catalog(props) ==
      m[CreatePagesTable := GetProperty(props, PropertyKey(CreatePagesTable))]
       [AllPages := GetProperty(props, PropertyKey(AllPages))]
       [GetPage := GetProperty(props, PropertyKey(GetPage))]
       [CreatePage := GetProperty(props, PropertyKey(CreatePage))]
       [SavePage := GetProperty(props, PropertyKey(SavePage))]
       [DeletePage := GetProperty(props, PropertyKey(DeletePage))]
       [AllPagesData := GetProperty(props, PropertyKey(AllPagesData))]
       [GetPageById := GetProperty(props, PropertyKey(GetPageById))]
  {
    var puts := m[CreatePagesTable := GetProperty(props, PropertyKey(CreatePagesTable))]
       [AllPages := GetProperty(props, PropertyKey(AllPages))]
       [GetPage := GetProperty(props, PropertyKey(GetPage))]
       [CreatePage := GetProperty(props, PropertyKey(CreatePage))]
       [SavePage := GetProperty(props, PropertyKey(SavePage))]
       [DeletePage := GetProperty(props, PropertyKey(DeletePage))]
       [AllPagesData := GetProperty(props, PropertyKey(AllPagesData))]
       [GetPageById := GetProperty(props, PropertyKey(GetPageById))];
    var catalog := Catalog(props);
    assert forall q: SqlQuery :: q in puts && puts[q] == GetProperty(props, PropertyKey(q)) by {
      forall q: SqlQuery ensures q in puts && puts[q] == GetProperty(props, PropertyKey(q)) {
        match q {
          case CreatePagesTable =>
          case AllPages =>
          case GetPage =>
          case CreatePage =>
          case SavePage =>
          case DeletePage =>
          case AllPagesData =>
          case GetPageById =>
        }
      }
    }
    MergeTotal(m, catalog, puts);
  }

  /** Adding a map that has every query gives that map, whatever the first map held. */
  lemma MergeTotal(m: map<SqlQuery, Option<string>>, total: map<SqlQuery, Option<string>>, same: map<SqlQuery, Option<string>>)
    requires forall q: SqlQuery :: q in total && q in same && total[q] == same[q]
    ensures m + total == same
  {
    assert (m + total).Keys == same.Keys;
  }

  /** The JDBC client settings. */
  datatype JdbcOptions = JdbcOptions(url: string, driverClass: string, maxPoolSize: int)

  /** The configured JDBC settings, each falling back to its default when its key is absent. */
  function JdbcConfig(config: Config): (r: JdbcOptions)
    ensures r.url == (if JdbcUrlKey in config.strings then config.strings[JdbcUrlKey] else DefaultJdbcUrl)
    ensures r.driverClass ==
      (if JdbcDriverKey in config.strings then config.strings[JdbcDriverKey] else DefaultJdbcDriver)
    ensures r.maxPoolSize ==
      (if JdbcMaxPoolSizeKey in config.ints then config.ints[JdbcMaxPoolSizeKey] else DefaultMaxPoolSize)
  {
    JdbcOptions(
      if JdbcUrlKey in config.strings then config.strings[JdbcUrlKey] else DefaultJdbcUrl,
      if JdbcDriverKey in config.strings then config.strings[JdbcDriverKey] else DefaultJdbcDriver,
      if JdbcMaxPoolSizeKey in config.ints then config.ints[JdbcMaxPoolSizeKey] else DefaultMaxPoolSize)
  }

  /** With nothing configured the verticle uses the embedded HSQLDB file database and 30 connections. */
  lemma DefaultJdbcSettings()
    ensures JdbcConfig(Config(map[], map[])) == JdbcOptions("jdbc:hsqldb:file:db/wiki", "org.hsqldb.jdbcDriver", 30)
  {
  }

  /** How the deployment of the verticle ends. */
  datatype StartResult = Started | StartFailed(cause: string)

  class WikiDatabaseVerticle {
    var sqlQueries: map<SqlQuery, Option<string>>
    var dbClient: Option<JdbcOptions>
    var registeredAt: Option<string>

    constructor ()
      ensures sqlQueries == map[] && dbClient == None && registeredAt == None
    {
      sqlQueries := map[];
      dbClient := None;
      registeredAt := None;
    }

    /**
     * Reads the properties from the source the configuration selects (`read`
     * stands for opening and loading the stream) and puts the eight queries
     * into the catalog; a read failure leaves the catalog untouched.
     */
    method LoadSqlQueries(config: Config, read: QuerySource -> WikiService.Reply<Properties>) returns (error: Option<string>)
      modifies this`sqlQueries
      ensures error.Some? <==> read(QueriesSource(config)).Failed?
      ensures error.Some? ==> error.value == read(QueriesSource(config)).message && sqlQueries == old(sqlQueries)
      ensures error.None? ==> sqlQueries == old(sqlQueries) + Catalog(read(QueriesSource(config)).value)
    {
      var source := QueriesSource(config);
      var loaded := read(source);
      if loaded.Failed? {
        return Some(loaded.message);
      }
      var props := loaded.value;
      sqlQueries := sqlQueries[CreatePagesTable := GetProperty(props, PropertyKey(CreatePagesTable))];
      sqlQueries := sqlQueries[AllPages := GetProperty(props, PropertyKey(AllPages))];
      sqlQueries := sqlQueries[GetPage := GetProperty(props, PropertyKey(GetPage))];
      sqlQueries := sqlQueries[CreatePage := GetProperty(props, PropertyKey(CreatePage))];
      sqlQueries := sqlQueries[SavePage := GetProperty(props, PropertyKey(SavePage))];
      sqlQueries := sqlQueries[DeletePage := GetProperty(props, PropertyKey(DeletePage))];
      sqlQueries := sqlQueries[AllPagesData := GetProperty(props, PropertyKey(AllPagesData))];
      sqlQueries := sqlQueries[GetPageById := GetProperty(props, PropertyKey(GetPageById))];
      CatalogPuts(old(sqlQueries), props);
      error := None;
    }

    /**
     * `start`: load the catalog, configure the JDBC client, then create the
     * service (`create` stands for the asynchronous creation) and register it
     * at `wikidb.queue` only if creation succeeded.
     */
    method Start(config: Config, read: QuerySource -> WikiService.Reply<Properties>,
                 create: (JdbcOptions, map<SqlQuery, Option<string>>) -> WikiService.Reply<()>)
      returns (result: StartResult)
      requires sqlQueries == map[] && registeredAt == None
      modifies this
      ensures read(QueriesSource(config)).Failed? ==>
        && result == StartFailed(read(QueriesSource(config)).message)
        && sqlQueries == old(sqlQueries) && dbClient == old(dbClient) && registeredAt == None
      ensures read(QueriesSource(config)).Succeeded? ==>
        && sqlQueries == Catalog(read(QueriesSource(config)).value)
        && dbClient == Some(JdbcConfig(config))
        && (create(JdbcConfig(config), sqlQueries).Succeeded? ==> result == Started && registeredAt == Some(WikiDbQueue))
        && (create(JdbcConfig(config), sqlQueries).Failed? ==>
              result == StartFailed(create(JdbcConfig(config), sqlQueries).message) && registeredAt == None)
    {
      var error := LoadSqlQueries(config, read);
      if error.Some? {
        return StartFailed(error.value);
      }
      dbClient := Some(JdbcConfig(config));
      var ready := create(dbClient.value, sqlQueries);
      if ready.Succeeded? {
        registeredAt := Some(WikiDbQueue);
        result := Started;
      } else {
        result := StartFailed(ready.message);
      }
    }
  }
}
