/** User property and user data requests (lib/xminds/endpoints/users_data_and_properties.rb). */
module UsersEndpoints {

  import opened Wrappers
  import opened JsonValues
  import opened Requests

  function ListAllUserProperties(): Call {
    Get(path := "users-properties/")
  }

  function CreateUserProperty(propertyName: Json, valueType: Json, repeated: Json := JBool(false)): Call {
    Post(path := "users-properties/",
         body := map["property_name" := propertyName, "value_type" := valueType, "repeated" := repeated])
  }

  function GetUserProperty(propertyName: string): Call {
    Get(path := "users-properties/" + propertyName + "/")
  }

  function DeleteUserProperty(propertyName: string): Call {
    Delete(path := "users-properties/" + propertyName + "/")
  }

  function GetUser(userId: string): Call {
    Get(path := "users/" + userId + "/")
  }

  function CreateOrUpdateUser(userId: string, user: Json): Call {
    Put(path := "users/" + userId + "/", body := map["user" := user])
  }

  function PartialUpdateUser(userId: string, user: Json, createIfMissing: Json := JBool(false)): Call {
    Patch(path := "users/" + userId + "/", body := map["user" := user, "create_if_missing" := createIfMissing])
  }

  function CreateOrUpdateUserBulk(users: Json): Call {
    Put(path := "users-bulk/", body := map["users" := users])
  }

  function PartialUpdateUserBulk(users: Json, createIfMissing: Json := JBool(false)): Call {
    Patch(path := "users-bulk/", body := map["users" := users, "create_if_missing" := createIfMissing])
  }

  function ListAllUsers(amount: Json := JNull, cursor: Json := JNull): Call {
    Get(path := "users-bulk/", query := map["amt" := amount, "cursor" := cursor])
  }

  function ListAllUsersById(userIds: Json): Call {
    Post(path := "users-bulk/list/", body := map["users_id" := userIds])
  }

  /**
   * Properties are listed and created on the collection path and addressed
   * one by one under their name; creating one sends the name, the value
   * type and `repeated` as given, `repeated` false unless given.
   */
  lemma UserPropertyRequests(name: string, propertyName: Json, valueType: Json, repeated: Json)
    ensures ListAllUserProperties().path == CreateUserProperty(propertyName, valueType).path == "users-properties/"
    ensures ListAllUserProperties().verb == GET && CreateUserProperty(propertyName, valueType).verb == POST
    ensures GetUserProperty(name).verb == GET && DeleteUserProperty(name).verb == DELETE
    ensures GetUserProperty(name).path == DeleteUserProperty(name).path == "users-properties/" + name + "/"
    ensures CreateUserProperty(propertyName, valueType).body["repeated"] == JBool(false)
    ensures CreateUserProperty(propertyName, valueType, repeated).body.Keys == {"property_name", "value_type", "repeated"}
    ensures CreateUserProperty(propertyName, valueType, repeated).body
      == map["property_name" := propertyName, "value_type" := valueType, "repeated" := repeated]
  {
  }

  /** One user is read with GET, replaced with PUT and patched with PATCH on its own path; `create_if_missing` is false unless given. */
  lemma UserRequests(userId: string, user: Json, createIfMissing: Json)
    ensures GetUser(userId).verb == GET && CreateOrUpdateUser(userId, user).verb == PUT
    ensures PartialUpdateUser(userId, user).verb == PATCH
    ensures GetUser(userId).path == CreateOrUpdateUser(userId, user).path == PartialUpdateUser(userId, user).path == "users/" + userId + "/"
    ensures CreateOrUpdateUser(userId, user).body == map["user" := user]
    ensures PartialUpdateUser(userId, user).body == map["user" := user, "create_if_missing" := JBool(false)]
    ensures PartialUpdateUser(userId, user, createIfMissing).body["create_if_missing"] == createIfMissing
  {
  }

  /** Bulk writes go to `users-bulk/`: PUT replaces, PATCH updates; listing by id posts the ids under `users_id`. */
  lemma UserBulkRequests(users: Json, userIds: Json, createIfMissing: Json)
    ensures CreateOrUpdateUserBulk(users).verb == PUT && PartialUpdateUserBulk(users).verb == PATCH
    ensures CreateOrUpdateUserBulk(users).body == map["users" := users]
    ensures CreateOrUpdateUserBulk(users).path == PartialUpdateUserBulk(users).path == "users-bulk/"
    ensures PartialUpdateUserBulk(users).body == map["users" := users, "create_if_missing" := JBool(false)]
    ensures PartialUpdateUserBulk(users, createIfMissing).body == map["users" := users, "create_if_missing" := createIfMissing]
    ensures var c := ListAllUsersById(userIds); c.verb == POST && c.path == "users-bulk/list/" && c.body == map["users_id" := userIds]
  {
  }

  /** Listing users sends `amt` and `cursor` only when set, and no query string when neither is. */
  lemma ListAllUsersQuery(endpoint: string, token: Option<string>, amount: Json, cursor: Json)
    ensures var m := MessageFor(endpoint, token, ListAllUsers(amount, cursor));
      && m.verb == GET && m.path == "users-bulk/"
      && (m.query.None? <==> amount == JNull && cursor == JNull)
      && (m.query.Some? ==> NullFree(m.query.value) && m.query.value.Keys <= {"amt", "cursor"}
                            && SentIfSet(m.query.value, "amt", amount)
                            && SentIfSet(m.query.value, "cursor", cursor))
  {
    var q := map["amt" := amount, "cursor" := cursor];
    if amount != JNull {
      assert "amt" in Compact(q);
    } else if cursor != JNull {
      assert "cursor" in Compact(q);
    } else {
      assert Compact(q) == map[];
    }
  }
}
