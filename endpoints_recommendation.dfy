/** Recommendation requests (lib/xminds/endpoints/recommendation.rb). */
module RecommendationEndpoints {

  import opened Wrappers
  import opened JsonValues
  import opened Requests

  function ListSimilarItemRecommendations(itemId: string, amount: Json := JNull, cursor: Json := JNull, filters: Json := JNull): Call {
    Get(path := "recommendation/items/" + itemId + "/items/",
        query := Compact(map["amt" := amount, "cursor" := cursor, "filters" := filters]))
  }

  function ListSessionBasedItemRecommendations(amount: Json := JNull, cursor: Json := JNull, filters: Json := JNull,
                                               ratings: Json := JNull, userProperties: Json := JNull,
                                               excludeRatedItems: Json := JBool(false)): Call {
    Post(path := "recommendation/sessions/items/",
         body := Compact(map["amt" := amount, "cursor" := cursor, "filters" := filters, "ratings" := ratings,
                             "user_properties" := userProperties, "exclude_rated_items" := excludeRatedItems]))
  }

  function ListProfileBasedItemRecommendations(userId: string, amount: Json := JNull, cursor: Json := JNull,
                                               filters: Json := JNull, excludeRatedItems: Json := JBool(false)): Call {
    Get(path := "recommendation/users/" + userId + "/items/",
        query := Compact(map["amt" := amount, "cursor" := cursor, "filters" := filters,
                             "exclude_rated_items" := excludeRatedItems]))
  }

  /**
   * Similar items: a GET whose query holds each of `amt`, `cursor` and
   * `filters` exactly when it is not nil, with its value, and nothing else.
   */
  lemma SimilarItemsRequest(itemId: string, amount: Json, cursor: Json, filters: Json)
    ensures var c := ListSimilarItemRecommendations(itemId, amount, cursor, filters);
      && c.verb == GET && c.path == "recommendation/items/" + itemId + "/items/" && c.body == map[]
      && NullFree(c.query) && c.query.Keys <= {"amt", "cursor", "filters"}
      && SentIfSet(c.query, "amt", amount) && SentIfSet(c.query, "cursor", cursor) && SentIfSet(c.query, "filters", filters)
  {
  }

  /** Session-based items: a POST on its path whose body sends nothing but the six arguments, and no nil. */
  lemma SessionItemsRequest(amount: Json, cursor: Json, filters: Json, ratings: Json, userProperties: Json, excludeRatedItems: Json)
    ensures var c := ListSessionBasedItemRecommendations(amount, cursor, filters, ratings, userProperties, excludeRatedItems);
      && c.verb == POST && c.path == "recommendation/sessions/items/" && c.query == map[]
      && NullFree(c.body) && c.body.Keys <= {"amt", "cursor", "filters", "ratings", "user_properties", "exclude_rated_items"}
  {
  }

  /** Session-based items: each argument is in the body exactly when it is not nil, with its value. */
  lemma SessionItemsArguments(amount: Json, cursor: Json, filters: Json, ratings: Json, userProperties: Json, excludeRatedItems: Json)
    ensures var b := ListSessionBasedItemRecommendations(amount, cursor, filters, ratings, userProperties, excludeRatedItems).body;
      && SentIfSet(b, "amt", amount) && SentIfSet(b, "cursor", cursor) && SentIfSet(b, "filters", filters)
      && SentIfSet(b, "ratings", ratings) && SentIfSet(b, "user_properties", userProperties)
      && SentIfSet(b, "exclude_rated_items", excludeRatedItems)
  {
    var h := map["amt" := amount, "cursor" := cursor, "filters" := filters, "ratings" := ratings,
                 "user_properties" := userProperties, "exclude_rated_items" := excludeRatedItems];
    CompactSendsIfSet(h, "amt");
    CompactSendsIfSet(h, "cursor");
    CompactSendsIfSet(h, "filters");
    CompactSendsIfSet(h, "ratings");
    CompactSendsIfSet(h, "user_properties");
    CompactSendsIfSet(h, "exclude_rated_items");
  }

  /** Profile-based items: a GET whose query holds each argument exactly when it is not nil, with its value. */
  lemma ProfileItemsRequest(userId: string, amount: Json, cursor: Json, filters: Json, excludeRatedItems: Json)
    ensures var c := ListProfileBasedItemRecommendations(userId, amount, cursor, filters, excludeRatedItems);
      && c.verb == GET && c.path == "recommendation/users/" + userId + "/items/" && c.body == map[]
      && NullFree(c.query) && c.query.Keys <= {"amt", "cursor", "filters", "exclude_rated_items"}
      && SentIfSet(c.query, "amt", amount) && SentIfSet(c.query, "cursor", cursor) && SentIfSet(c.query, "filters", filters)
      && SentIfSet(c.query, "exclude_rated_items", excludeRatedItems)
  {
    var h := map["amt" := amount, "cursor" := cursor, "filters" := filters, "exclude_rated_items" := excludeRatedItems];
    CompactSendsIfSet(h, "amt");
    CompactSendsIfSet(h, "cursor");
    CompactSendsIfSet(h, "filters");
    CompactSendsIfSet(h, "exclude_rated_items");
  }

  /**
   * `exclude_rated_items` defaults to false, so unless a caller passes nil
   * explicitly it is always sent: in the session body and in the profile query.
   */
  lemma ExcludeRatedItemsAlwaysSent(endpoint: string, token: Option<string>, userId: string, excludeRatedItems: Json)
    ensures var b := ListSessionBasedItemRecommendations().body;
      "exclude_rated_items" in b && b["exclude_rated_items"] == JBool(false)
    ensures var q := ListProfileBasedItemRecommendations(userId).query;
      "exclude_rated_items" in q && q["exclude_rated_items"] == JBool(false)
    ensures var m := MessageFor(endpoint, token, ListSessionBasedItemRecommendations());
      m.body.Some? && "exclude_rated_items" in m.body.value
    ensures ("exclude_rated_items" in ListSessionBasedItemRecommendations(excludeRatedItems := excludeRatedItems).body)
      <==> excludeRatedItems != JNull
  {
  }
}
