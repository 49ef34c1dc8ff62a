/** Database requests (lib/xminds/endpoints/database.rb). */
module DatabaseEndpoints {

  import opened Wrappers
  import opened JsonValues
  import opened Requests

  function CreateDatabase(databaseName: Json, description: Json, itemIdType: Json, userIdType: Json): Call {
    Post(path := "databases/",
         body := map["name" := databaseName, "description" := description,
                     "item_id_type" := itemIdType, "user_id_type" := userIdType])
  }

  function ListAllDatabases(page: Json := JNull, amount: Json := JNull): Call {
    Get(path := "databases/", query := map["page" := page, "amt" := amount])
  }

  function CurrentDatabase(): Call {
    Get(path := "databases/current/")
  }

  function DeleteCurrentDatabase(): Call {
    Delete(path := "databases/current/")
  }

  function CurrentDatabaseStatus(): Call {
    Get(path := "databases/current/status/")
  }

  /** Creating a database sends its name under `name` and the other three arguments as given, all four keys present even when nil. */
  lemma CreateDatabaseBody(databaseName: Json, description: Json, itemIdType: Json, userIdType: Json)
    ensures var c := CreateDatabase(databaseName, description, itemIdType, userIdType);
      && c.verb == POST && c.path == "databases/" && c.authRequired
      && c.body.Keys == {"name", "description", "item_id_type", "user_id_type"}
      && c.body["name"] == databaseName && "database_name" !in c.body
      && c.body == map["name" := databaseName, "description" := description,
                       "item_id_type" := itemIdType, "user_id_type" := userIdType]
  {
  }

  /**
   * Listing is a GET on `databases/` that sends `page` and `amt` only when
   * set: no query string without pagination, exactly both with both.
   */
  lemma ListAllDatabasesQuery(endpoint: string, token: Option<string>, page: Json, amount: Json)
    ensures var m := MessageFor(endpoint, token, ListAllDatabases(page, amount));
      && m.verb == GET && m.path == "databases/"
      && (m.query.None? <==> page == JNull && amount == JNull)
      && (m.query.Some? ==> NullFree(m.query.value) && m.query.value.Keys <= {"page", "amt"}
                            && SentIfSet(m.query.value, "page", page)
                            && SentIfSet(m.query.value, "amt", amount))
    ensures MessageFor(endpoint, token, ListAllDatabases()).query.None?
    ensures page != JNull && amount != JNull ==>
      MessageFor(endpoint, token, ListAllDatabases(page, amount)).query == Some(map["page" := page, "amt" := amount])
  {
    var q := map["page" := page, "amt" := amount];
    if page != JNull && amount != JNull {
      assert Compact(q) == q && "page" in q;
    }
    if page != JNull {
      assert "page" in Compact(q);
    } else if amount != JNull {
      assert "amt" in Compact(q);
    } else {
      assert Compact(q) == map[];
    }
    assert Compact(map["page" := JNull, "amt" := JNull]) == map[];
  }

  /** The current database is read with GET, deleted with a DELETE that has no body, and its status has its own path. */
  lemma CurrentDatabaseRequests(endpoint: string, token: Option<string>)
    ensures CurrentDatabase().verb == GET && CurrentDatabase().path == "databases/current/"
    ensures var m := MessageFor(endpoint, token, DeleteCurrentDatabase());
      m.verb == DELETE && m.path == "databases/current/" && m.body.None?
    ensures CurrentDatabaseStatus().verb == GET && CurrentDatabaseStatus().path == "databases/current/status/"
  {
  }
}
