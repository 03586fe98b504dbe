/**
 The resource methods of the client: each turns its arguments into one
 request (verb, URL, body) for the executor, except `activitiesCreate`,
 which answers a fixed placeholder without sending anything.

 URLs are PHP string concatenations: ids are converted with PHP's string
 conversion, and the optional `'/'.$id` and `'?'.http_build_query($params)`
 parts are added only when the id or the parameter array is truthy.
 `json_encode` and `http_build_query` are encoders passed in by the caller.
 */
module Resources {
  import opened Wrappers
  import opened Php
  import opened Executor

  const BaseUrl: string := "https://app.liquidplanner.com/api"
  const NotYetImplemented: string := "Not yet implemented - expected soon"

  /** The credentials and workspace fixed when the client is constructed. */
  datatype Client = Client(workspaceId: Json, email: string, password: string)

  /** What a resource method does: hand one request to the executor, or answer at once. */
  datatype Call = Send(request: Request) | Immediate(value: Json)

  const WorkspacesRoot: string := BaseUrl + "/workspaces/"

  /**
   The workspace-scoped prefix of every resource URL except the account's:
   the workspaces root followed by the workspace id's string form.
   */
  function ServiceUrl(c: Client): (u: string)
    ensures BaseUrl <= WorkspacesRoot <= u
    ensures u[|WorkspacesRoot|..] == ToPhpString(c.workspaceId)
  {
    var u := WorkspacesRoot + ToPhpString(c.workspaceId);
    assert u[..|WorkspacesRoot|] == WorkspacesRoot;
    assert WorkspacesRoot[..|BaseUrl|] == BaseUrl;
    u
  }

  /** PHP's `array` parameter type. */
  predicate IsPhpArray(v: Json) {
    v.Arr? || v.Obj?
  }

  /** `($id ? '/'.$id : '')` */
  function IdSuffix(id: Json): string {
    if Truthy(id) then "/" + ToPhpString(id) else ""
  }

  /** `($params ? '?'.http_build_query($params) : '')` */
  function QuerySuffix(params: Json, buildQuery: Json -> string): string {
    if Truthy(params) then "?" + buildQuery(params) else ""
  }

  /** A request with the given verb under the workspace, carrying a body exactly when it posts. */
  predicate WorkspaceRequest(c: Client, call: Call, verb: Verb) {
    && call.Send?
    && call.request.verb == verb
    && ServiceUrl(c) <= call.request.url
    && (call.request.body.Some? <==> verb == Post)
  }

  lemma PrefixOfConcat(a: string, b: string)
    ensures a <= a + b
  {
    assert (a + b)[..|a|] == a;
  }

  function WorkspaceGet(c: Client, path: string): (call: Call)
    ensures WorkspaceRequest(c, call, Get)
  {
    PrefixOfConcat(ServiceUrl(c), path);
    Send(Request(Get, ServiceUrl(c) + path, None))
  }

  function WorkspaceDelete(c: Client, path: string): (call: Call)
    ensures WorkspaceRequest(c, call, Delete)
  {
    PrefixOfConcat(ServiceUrl(c), path);
    Send(Request(Delete, ServiceUrl(c) + path, None))
  }

  function WorkspacePost(c: Client, path: string, body: string): (call: Call)
    ensures WorkspaceRequest(c, call, Post)
  {
    PrefixOfConcat(ServiceUrl(c), path);
    Send(Request(Post, ServiceUrl(c) + path, Some(body)))
  }

  /** Runs a resource call against the scripted replies of the server. */
  function Perform(call: Call, replies: seq<Json>): (t: Trace)
    ensures call.Immediate? ==> t == Trace(Returned(call.value), [], [])
    ensures call.Send? ==> IsRunOf(call.request, replies, t)
  {
    match call
    case Send(request) => Execute(request, replies)
    case Immediate(v) => Trace(Returned(v), [], [])
  }

  // ---------------------------------------------------------------- reads

  function Tasks(c: Client, taskId: Json, params: Json, buildQuery: Json -> string): (call: Call)
    ensures WorkspaceRequest(c, call, Get)
  {
    WorkspaceGet(c, "/tasks" + IdSuffix(taskId) + QuerySuffix(params, buildQuery))
  }

  function Timesheets(c: Client, params: Json, buildQuery: Json -> string): (call: Call)
    ensures WorkspaceRequest(c, call, Get)
  {
    WorkspaceGet(c, "/timesheets/" + QuerySuffix(params, buildQuery))
  }

  function TimesheetEntries(c: Client, timesheetId: Json, params: Json, buildQuery: Json -> string): (call: Call)
    ensures WorkspaceRequest(c, call, Get)
  {
    var scope := if Truthy(timesheetId) then "/timesheets/" + ToPhpString(timesheetId) else "";
    WorkspaceGet(c, scope + "/timesheet_entries" + QuerySuffix(params, buildQuery))
  }

  /** The task id is concatenated unconditionally, so a null id leaves an empty segment. */
  function TaskTimesheetEntries(c: Client, taskId: Json, params: Json, buildQuery: Json -> string): (call: Call)
    ensures WorkspaceRequest(c, call, Get)
  {
    WorkspaceGet(c, "/tasks/" + ToPhpString(taskId) + "/timesheet_entries" + QuerySuffix(params, buildQuery))
  }

  /** The account lives under the API root, not under the workspace. */
  function Account(c: Client): (call: Call)
    ensures call.Send? && call.request.verb == Get && call.request.body.None?
    ensures call.request.url == BaseUrl + "/account"
    ensures !(ServiceUrl(c) <= call.request.url)
  {
    var url := BaseUrl + "/account";
    assert url[|BaseUrl| + 1] == 'a';
    var s := ServiceUrl(c);
    assert s[|BaseUrl| + 1] == 'w';
    PrefixOfConcat(BaseUrl, "/account");
    Send(Request(Get, url, None))
  }

  function Workspace(c: Client): (call: Call)
    ensures WorkspaceRequest(c, call, Get)
    ensures call.request.url == ServiceUrl(c)
  {
    assert ServiceUrl(c) + "" == ServiceUrl(c);
    WorkspaceGet(c, "")
  }

  function Clients(c: Client, clientId: Json): (call: Call)
    ensures WorkspaceRequest(c, call, Get)
  {
    WorkspaceGet(c, "/clients" + IdSuffix(clientId))
  }

  /** The client id is concatenated unconditionally; the comment id only when truthy. */
  function ClientsComments(c: Client, clientId: Json, commentId: Json): (call: Call)
    ensures WorkspaceRequest(c, call, Get)
  {
    WorkspaceGet(c, "/clients/" + ToPhpString(clientId) + "/comments" + IdSuffix(commentId))
  }

  function Members(c: Client, memberId: Json): (call: Call)
    ensures WorkspaceRequest(c, call, Get)
  {
    WorkspaceGet(c, "/members" + IdSuffix(memberId))
  }

  /** `member($id)` delegates to `members($id)`. */
  function Member(c: Client, memberId: Json): (call: Call)
    ensures WorkspaceRequest(c, call, Get)
  {
    Members(c, memberId)
  }

  function Projects(c: Client, projectId: Json): (call: Call)
    ensures WorkspaceRequest(c, call, Get)
  {
    WorkspaceGet(c, "/projects" + IdSuffix(projectId))
  }

  function Activities(c: Client, activityId: Json): (call: Call)
    ensures WorkspaceRequest(c, call, Get)
  {
    WorkspaceGet(c, "/activities" + IdSuffix(activityId))
  }

  // ---------------------------------------------------------------- writes

  function ClientsCommentsDelete(c: Client, clientId: Json, commentId: Json): (call: Call)
    ensures WorkspaceRequest(c, call, Delete)
  {
    WorkspaceDelete(c, "/clients/" + ToPhpString(clientId) + "/comments/" + ToPhpString(commentId))
  }

  function TasksDelete(c: Client, id: Json): (call: Call)
    ensures WorkspaceRequest(c, call, Delete)
  {
    WorkspaceDelete(c, "/tasks/" + ToPhpString(id))
  }

  function TasksCreate(c: Client, data: Json, encode: Json -> string): (call: Call)
    requires IsPhpArray(data)
    ensures WorkspaceRequest(c, call, Post)
  {
    WorkspacePost(c, "/tasks", encode(Obj(map["task" := data])))
  }

  function TasksTrackTime(c: Client, data: Json, taskId: Json, encode: Json -> string): (call: Call)
    requires IsPhpArray(data)
    ensures WorkspaceRequest(c, call, Post)
  {
    WorkspacePost(c, "/tasks/" + ToPhpString(taskId) + "/track_time", encode(data))
  }

  function TasksCommentsCreate(c: Client, data: Json, taskId: Json, encode: Json -> string): (call: Call)
    requires IsPhpArray(data)
    ensures WorkspaceRequest(c, call, Post)
  {
    WorkspacePost(c, "/tasks/" + ToPhpString(taskId) + "/comments", encode(Obj(map["comment" := data])))
  }

  function TasksNoteCreate(c: Client, data: Json, taskId: Json, encode: Json -> string): (call: Call)
    requires IsPhpArray(data)
    ensures WorkspaceRequest(c, call, Post)
  {
    WorkspacePost(c, "/tasks/" + ToPhpString(taskId) + "/note", encode(Obj(map["note" := data])))
  }

  function TasksLinkCreate(c: Client, data: Json, taskId: Json, encode: Json -> string): (call: Call)
    requires IsPhpArray(data)
    ensures WorkspaceRequest(c, call, Post)
  {
    WorkspacePost(c, "/tasks/" + ToPhpString(taskId) + "/links", encode(Obj(map["link" := data])))
  }

  function ClientsCreate(c: Client, name: Json, description: Json, externalRef: Json,
                         encode: Json -> string): (call: Call)
    ensures WorkspaceRequest(c, call, Post)
  {
    var client := map["name" := name, "description" := description, "external_reference" := externalRef];
    WorkspacePost(c, "/clients", encode(Obj(map["client" := Obj(client)])))
  }

  function ProjectsCreate(c: Client, name: Json, clientId: Json, parentId: Json, description: Json,
                          isDone: Json, doneOn: Json, externalReference: Json,
                          encode: Json -> string): (call: Call)
    ensures WorkspaceRequest(c, call, Post)
  {
    var project := map[
      "name" := name, "client_id" := clientId, "parent_id" := parentId,
      "description" := description, "is_done" := isDone, "done_on" := doneOn,
      "external_reference" := externalReference];
    WorkspacePost(c, "/projects", encode(Obj(map["project" := Obj(project)])))
  }

  /** A stub: it answers a one-element list and never reaches the server. */
  function ActivitiesCreate(c: Client, data: Json, encode: Json -> string): (call: Call)
    requires IsPhpArray(data)
    ensures call.Immediate?
  {
    Immediate(Arr([Str(NotYetImplemented)]))
  }
}

/** Properties of the URLs and calls the resource methods produce. */
module ResourceProperties {
  import opened Php
  import opened Executor
  import opened Resources
  import Decimal
  import Throttle
  import WaitTime

  /** A falsy id (null, 0, "0", "", false, an empty array) is left out: the call lists the collection. */
  lemma FalsyIdOmitted(c: Client, id: Json, other: Json, params: Json, buildQuery: Json -> string)
    requires !Truthy(id)
    ensures Tasks(c, id, params, buildQuery) == Tasks(c, Null, params, buildQuery)
    ensures TimesheetEntries(c, id, params, buildQuery) == TimesheetEntries(c, Null, params, buildQuery)
    ensures Clients(c, id) == Clients(c, Null)
    ensures ClientsComments(c, other, id) == ClientsComments(c, other, Null)
    ensures Members(c, id) == Members(c, Null)
    ensures Projects(c, id) == Projects(c, Null)
    ensures Activities(c, id) == Activities(c, Null)
  {
  }

  lemma ConcatEmpty(a: string)
    ensures a + "" == a
  {
  }

  /** The shape every optional-id collection URL shares. */
  lemma SegmentLaw(u: string, collection: string, id: Json)
    requires Truthy(id)
    ensures u + (collection + IdSuffix(id)) == (u + (collection + IdSuffix(Null))) + "/" + ToPhpString(id)
  {
    ConcatEmpty(collection);
    assert IdSuffix(Null) == "";
  }

  /** A truthy id extends the collection's URL by one segment holding the id's string form. */
  lemma TruthyIdAppendsSegment(c: Client, id: Json, buildQuery: Json -> string)
    requires Truthy(id)
    ensures Tasks(c, id, Null, buildQuery).request.url
         == Tasks(c, Null, Null, buildQuery).request.url + "/" + ToPhpString(id)
    ensures Clients(c, id).request.url == Clients(c, Null).request.url + "/" + ToPhpString(id)
    ensures Members(c, id).request.url == Members(c, Null).request.url + "/" + ToPhpString(id)
    ensures Projects(c, id).request.url == Projects(c, Null).request.url + "/" + ToPhpString(id)
    ensures Activities(c, id).request.url == Activities(c, Null).request.url + "/" + ToPhpString(id)
  {
    var u := ServiceUrl(c);
    assert QuerySuffix(Null, buildQuery) == "";
    ConcatEmpty("/tasks" + IdSuffix(id));
    ConcatEmpty("/tasks" + IdSuffix(Null));
    SegmentLaw(u, "/tasks", id);
    SegmentLaw(u, "/clients", id);
    SegmentLaw(u, "/members", id);
    SegmentLaw(u, "/projects", id);
    SegmentLaw(u, "/activities", id);
  }

  /** The shape every URL with an optional query string shares. */
  lemma QueryLaw(u: string, path: string, params: Json, buildQuery: Json -> string)
    ensures u + (path + QuerySuffix(params, buildQuery))
         == (u + (path + QuerySuffix(Null, buildQuery))) + (if Truthy(params) then "?" + buildQuery(params) else "")
  {
    ConcatEmpty(path);
  }

  /** A truthy parameter array appends `?` and its query string; an empty one appends nothing. */
  lemma ParamsAppendQuery(c: Client, id: Json, params: Json, buildQuery: Json -> string)
    ensures Tasks(c, id, params, buildQuery).request.url
         == Tasks(c, id, Null, buildQuery).request.url + (if Truthy(params) then "?" + buildQuery(params) else "")
    ensures Timesheets(c, params, buildQuery).request.url
         == Timesheets(c, Null, buildQuery).request.url + (if Truthy(params) then "?" + buildQuery(params) else "")
    ensures TimesheetEntries(c, id, params, buildQuery).request.url
         == TimesheetEntries(c, id, Null, buildQuery).request.url + (if Truthy(params) then "?" + buildQuery(params) else "")
    ensures TaskTimesheetEntries(c, id, params, buildQuery).request.url
         == TaskTimesheetEntries(c, id, Null, buildQuery).request.url + (if Truthy(params) then "?" + buildQuery(params) else "")
  {
    var u := ServiceUrl(c);
    QueryLaw(u, "/tasks" + IdSuffix(id), params, buildQuery);
    QueryLaw(u, "/timesheets/", params, buildQuery);
    var scope := if Truthy(id) then "/timesheets/" + ToPhpString(id) else "";
    QueryLaw(u, scope + "/timesheet_entries", params, buildQuery);
    QueryLaw(u, "/tasks/" + ToPhpString(id) + "/timesheet_entries", params, buildQuery);
  }

  lemma RegroupIdPath(u: string, collection: string, slash: string, id: string)
    ensures u + (collection + (slash + id) + "") == (u + (collection + slash)) + id
  {
    ConcatEmpty(collection + (slash + id));
  }

  lemma CancelPrefix(p: string, x: string, y: string)
    requires p + x == p + y
    ensures x == y
  {
    assert x == (p + x)[|p|..];
    assert y == (p + y)[|p|..];
  }

  /** Distinct positive task ids address distinct tasks. */
  lemma DistinctTaskIdsDistinctUrls(c: Client, a: nat, b: nat, buildQuery: Json -> string)
    requires a > 0 && b > 0
    requires Tasks(c, Num(a), Null, buildQuery) == Tasks(c, Num(b), Null, buildQuery)
    ensures a == b
  {
    var u := ServiceUrl(c);
    var da := Decimal.FromNat(a);
    var db := Decimal.FromNat(b);
    assert IdSuffix(Num(a)) == "/" + da;
    assert IdSuffix(Num(b)) == "/" + db;
    assert QuerySuffix(Null, buildQuery) == "";
    RegroupIdPath(u, "/tasks", "/", da);
    RegroupIdPath(u, "/tasks", "/", db);
    CancelPrefix(u + ("/tasks" + "/"), da, db);
    Decimal.FromNatInjective(a, b);
  }

  /** Clients built for distinct non-negative workspace ids address distinct workspaces. */
  lemma DistinctWorkspaceIdsDistinctUrls(a: nat, b: nat, email: string, password: string)
    requires ServiceUrl(Client(Num(a), email, password)) == ServiceUrl(Client(Num(b), email, password))
    ensures a == b
  {
    assert Decimal.FromNat(a) == ToPhpString(Num(a));
    assert Decimal.FromNat(b) == ToPhpString(Num(b));
    Decimal.FromNatInjective(a, b);
  }

  /** A task's time-sheet entries without a task id land on an empty path segment. */
  lemma TaskTimesheetEntriesWithoutId(c: Client, buildQuery: Json -> string)
    ensures TaskTimesheetEntries(c, Null, Null, buildQuery).request.url
         == ServiceUrl(c) + "/tasks//timesheet_entries"
  {
    assert "/tasks/" + "" + "/timesheet_entries" + "" == "/tasks//timesheet_entries";
  }

  /** `member($id)` behaves exactly like `members($id)`, whatever the server replies. */
  lemma MemberDelegatesToMembers(c: Client, id: Json, replies: seq<Json>)
    ensures Perform(Member(c, id), replies) == Perform(Members(c, id), replies)
  {
  }

  /** `activitiesCreate` sends nothing and answers the placeholder list whatever it is given. */
  lemma ActivitiesCreateSendsNothing(c: Client, data: Json, encode: Json -> string, replies: seq<Json>)
    requires IsPhpArray(data)
    ensures Perform(ActivitiesCreate(c, data, encode), replies) == Trace(Returned(Arr([Str(NotYetImplemented)])), [], [])
  {
  }

  /**
   Creating a task against a server that first throttles with "Try again in
   1 seconds" and then answers: one three-second sleep, the identical
   request sent twice, and the second answer returned.
   */
  lemma CreateTaskAfterThrottle(c: Client, data: Json, encode: Json -> string)
    requires IsPhpArray(data)
    ensures
      var throttled := Obj(map["type" := Str("Error"), "error" := Str("Throttled"),
                               "message" := Str("Try again in 1 seconds")]);
      var created := Obj(map["id" := Num(42), "name" := Str("Fix bug")]);
      var t := Perform(TasksCreate(c, data, encode), [throttled, created]);
      && t.outcome == Returned(created)
      && t.sleeps == [3]
      && t.sent == [TasksCreate(c, data, encode).request, TasksCreate(c, data, encode).request]
  {
    var throttled := Obj(map["type" := Str("Error"), "error" := Str("Throttled"),
                             "message" := Str("Try again in 1 seconds")]);
    var created := Obj(map["id" := Num(42), "name" := Str("Fix bug")]);
    Throttle.ThrottledStringFields(throttled.fields, "Error", "Throttled");
    assert !Throttle.IsThrottled(created) by {
      Throttle.ThrottledShape(created);
    }
    assert Decimal.FromNat(1) == "1";
    assert WaitTime.TryAgainIn + "1" + WaitTime.Seconds + "" == "Try again in 1 seconds";
    WaitTime.WaitTimeOfRenderedNumber(1, "");
    var replies := [throttled, created];
    assert replies[1..] == [created];
  }
}
