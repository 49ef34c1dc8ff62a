/** User rating requests (lib/xminds/endpoints/user_ratings.rb). */
module RatingsEndpoints {

  import opened Wrappers
  import opened JsonValues
  import opened Requests

  function CreateOrUpdateRating(userId: string, itemId: string, rating: Json, timestamp: Json := JNull): Call {
    Put(path := "users/" + userId + "/ratings/" + itemId + "/",
        body := Compact(map["rating" := rating, "timestamp" := timestamp]))
  }

  function DeleteRating(userId: string, itemId: string): Call {
    Delete(path := "users/" + userId + "/ratings/" + itemId + "/")
  }

  function ListAllRatingsForUser(userId: string, page: Json := JNull, amount: Json := JNull): Call {
    Get(path := "users/" + userId + "/ratings/", query := map["page" := page, "amt" := amount])
  }

  function CreateOrUpdateRatingsForUserBulk(userId: string, ratings: Json): Call {
    Put(path := "users/" + userId + "/ratings/", body := map["ratings" := ratings])
  }

  function DeleteAllRatingsForUser(userId: string): Call {
    Delete(path := "users/" + userId + "/ratings/")
  }

  function CreateOrUpdateRatingsBulk(ratings: Json): Call {
    Put(path := "ratings-bulk/", body := map["ratings" := ratings])
  }

  function ListAllRatings(amount: Json := JNull, cursor: Json := JNull): Call {
    Get(path := "ratings-bulk/", query := map["amt" := amount, "cursor" := cursor])
  }

  /**
   * One rating is written with PUT and removed with a body-less DELETE on
   * the same path; a nil timestamp is left out of the body.
   */
  lemma RatingRequests(endpoint: string, token: Option<string>, userId: string, itemId: string, rating: Json, timestamp: Json)
    ensures var c := CreateOrUpdateRating(userId, itemId, rating, timestamp);
      && c.verb == PUT && c.path == "users/" + userId + "/ratings/" + itemId + "/"
      && NullFree(c.body) && c.body.Keys <= {"rating", "timestamp"}
      && SentIfSet(c.body, "rating", rating)
      && SentIfSet(c.body, "timestamp", timestamp)
    ensures "timestamp" !in CreateOrUpdateRating(userId, itemId, rating).body
    ensures var m := MessageFor(endpoint, token, DeleteRating(userId, itemId));
      m.verb == DELETE && m.path == CreateOrUpdateRating(userId, itemId, rating).path && m.body.None?
  {
  }

  /**
   * A user's ratings are listed with GET (query `page`, `amt`), replaced in
   * bulk with PUT and deleted with DELETE on `users/<u>/ratings/`; all
   * ratings are written with PUT and listed with GET (query `amt`, `cursor`)
   * on `ratings-bulk/`.
   */
  lemma RatingCollectionRequests(endpoint: string, token: Option<string>, userId: string, ratings: Json, page: Json, amount: Json, cursor: Json)
    ensures var c := ListAllRatingsForUser(userId, page, amount);
      c.verb == GET && c.path == "users/" + userId + "/ratings/" && c.query == map["page" := page, "amt" := amount]
    ensures MessageFor(endpoint, token, ListAllRatingsForUser(userId)).query.None?
    ensures var c := CreateOrUpdateRatingsForUserBulk(userId, ratings);
      c.verb == PUT && c.path == "users/" + userId + "/ratings/" && c.body == map["ratings" := ratings]
    ensures DeleteAllRatingsForUser(userId).verb == DELETE && DeleteAllRatingsForUser(userId).path == "users/" + userId + "/ratings/"
    ensures var c := CreateOrUpdateRatingsBulk(ratings);
      c.verb == PUT && c.path == "ratings-bulk/" && c.body == map["ratings" := ratings]
    ensures var c := ListAllRatings(amount, cursor);
      c.verb == GET && c.path == "ratings-bulk/" && c.query == map["amt" := amount, "cursor" := cursor]
  {
    assert Compact(map["page" := JNull, "amt" := JNull]) == map[];
  }
}
