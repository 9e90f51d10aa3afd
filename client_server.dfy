/**
 * How the page's create request meets the POST handler: the page sends a
 * title only when the handler would accept it, and then the handler keeps
 * that title as it is.
 */
module ClientServer {
  import opened Text
  import opened Wrappers
  import opened TaskModel
  import TaskRoute
  import TasksPage

  /**
   * The JSON body the page posts for a request. A request whose title is
   * non-empty and trimmed, as every one `DraftRequest` produces, passes the
   * handler's check with its title unchanged.
   */
  function AsBody(req: TasksPage.CreateRequest): (b: TaskRoute.RequestBody)
    ensures req.title != [] && Trimmed(req.title) ==> TaskRoute.ValidTitle(b) == Some(req.title)
  {
    TrimFixedIff(req.title);
    TaskRoute.Json(Some(req.title), req.description, req.dueDate)
  }

  /** The page holds back exactly the titles the handler answers with 400. */
  lemma DraftSentIffServerAccepts(title: string, description: string, dueDate: string)
    ensures TasksPage.DraftRequest(title, description, dueDate).Some?
        <==> TaskRoute.ValidTitle(TaskRoute.Json(Some(title), None, None)).Some?
  {
  }

  /**
   * Every request the page sends passes POST's check with its title
   * unchanged: `DraftRequest` only ever produces non-empty trimmed titles,
   * and `AsBody` keeps such a title as it is.
   */
  lemma ServerAcceptsDraft(req: TasksPage.CreateRequest)
    requires req.title != [] && Trimmed(req.title)
    ensures TaskRoute.ValidTitle(AsBody(req)) == Some(req.title)
  {
  }

  /**
   * Posting a request the page sends stores a task with the request's title,
   * and without the description and due date the page sent.
   */
  method PostRequestScenario(store: TaskRoute.TaskStore, req: TasksPage.CreateRequest, now: int)
    requires store.Valid()
    requires req.title != [] && Trimmed(req.title)
    modifies store
  {
    ServerAcceptsDraft(req);
    var resp := TaskRoute.Post(store, AsBody(req), now);
    assert resp.status == 201;
    assert resp.body.task.title == req.title;
    assert resp.body.task.description == None && resp.body.task.dueDate == None;
  }
}
