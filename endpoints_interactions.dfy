/** User interaction requests (lib/xminds/endpoints/user_interactions.rb). */
module InteractionsEndpoints {

  import opened Wrappers
  import opened JsonValues
  import opened Requests

  function CreateUserInteraction(userId: string, itemId: string, interactionType: Json, timestamp: Json := JNull): Call {
    Post(path := "users/" + userId + "/interactions/" + itemId + "/",
         body := Compact(map["interaction_type" := interactionType, "timestamp" := timestamp]))
  }

  function CreateUserInteractionsBulk(interactions: Json): Call {
    Post(path := "interactions-bulk/", body := map["interactions" := interactions])
  }

  /**
   * Both requests are authenticated POSTs; a single interaction leaves a nil
   * timestamp out of its body.
   */
  lemma InteractionRequests(endpoint: string, token: Option<string>, userId: string, itemId: string,
                            interactionType: Json, timestamp: Json, interactions: Json)
    ensures var c := CreateUserInteraction(userId, itemId, interactionType, timestamp);
      && c.verb == POST && c.path == "users/" + userId + "/interactions/" + itemId + "/" && c.authRequired
      && NullFree(c.body) && c.body.Keys <= {"interaction_type", "timestamp"}
      && SentIfSet(c.body, "interaction_type", interactionType)
      && SentIfSet(c.body, "timestamp", timestamp)
    ensures var c := CreateUserInteractionsBulk(interactions);
      c.verb == POST && c.path == "interactions-bulk/" && c.authRequired && c.body == map["interactions" := interactions]
    ensures var m := MessageFor(endpoint, token, CreateUserInteractionsBulk(interactions));
      AuthorizationHeader in m.headers && m.headers[AuthorizationHeader] == "Bearer " + token.GetOr("")
  {
    MessageHeaders(endpoint, token, CreateUserInteractionsBulk(interactions));
  }
}
