/** Background task requests (lib/xminds/endpoints/background_tasks.rb). */
module BackgroundTasksEndpoints {

  import opened Wrappers
  import opened JsonValues
  import opened Requests

  function TriggerBackgroundTask(taskName: string): Call {
    Post(path := "tasks/" + taskName + "/")
  }

  function ListRecentBackgroundTasks(taskName: string): Call {
    Get(path := "tasks/" + taskName + "/recents/")
  }

  /**
   * Triggering POSTs and listing GETs the task's path; neither message has a
   * body or a query string, and both carry the bearer token.
   */
  lemma BackgroundTaskMessages(endpoint: string, token: Option<string>, taskName: string)
    ensures var m := MessageFor(endpoint, token, TriggerBackgroundTask(taskName));
      && m.verb == POST && m.path == "tasks/" + taskName + "/"
      && m.body.None? && m.query.None?
      && AuthorizationHeader in m.headers && m.headers[AuthorizationHeader] == "Bearer " + token.GetOr("")
    ensures var m := MessageFor(endpoint, token, ListRecentBackgroundTasks(taskName));
      && m.verb == GET && m.path == "tasks/" + taskName + "/recents/"
      && m.body.None? && m.query.None?
      && AuthorizationHeader in m.headers && m.headers[AuthorizationHeader] == "Bearer " + token.GetOr("")
  {
    MessageHeaders(endpoint, token, TriggerBackgroundTask(taskName));
    MessageHeaders(endpoint, token, ListRecentBackgroundTasks(taskName));
  }
}
