/** The authorized request pipeline (src/services/apiService.ts): one axios
    instance on a single base URL whose request interceptor attaches the
    stored token as a bearer credential, and one (method, path) per domain
    operation. Sending is recorded as a trace of outgoing request configs. */
module ApiService {
  import opened Wrappers
  import opened Types
  import opened Decimal
  import opened Storage
  import AuthService

  const ApiUrl: string := "https://mini-project-manager-server-gihr.onrender.com/api"
  const AuthorizationHeader: string := "Authorization"
  const BearerPrefix: string := "Bearer "

  datatype HttpMethod = GET | POST | PUT | DELETE

  datatype Body =
    | ProjectBody(project: CreateProjectDto)
    | TaskBody(task: CreateTaskDto)
    | UpdateBody(update: UpdateTaskDto)

  /** The parts of an axios request config that this client sets. */
  datatype RequestConfig = RequestConfig(
    verb: HttpMethod,
    baseURL: string,
    url: string,
    headers: map<string, string>,
    data: Option<Body>)

  /** One call of `apiService`, with its arguments. */
  datatype Call =
    | GetProjects
    | GetProject(id: int)
    | CreateProject(project: CreateProjectDto)
    | DeleteProject(id: int)
    | CreateTask(projectId: int, task: CreateTaskDto)
    | UpdateTask(taskId: int, update: UpdateTaskDto)
    | DeleteTask(taskId: int)

  /** What a route identifies: the operation and its ids, without the body. */
  datatype Endpoint =
    | ListProjects
    | ReadProject(id: int)
    | AddProject
    | RemoveProject(id: int)
    | AddTask(projectId: int)
    | ChangeTask(taskId: int)
    | RemoveTask(taskId: int)

  function EndpointOf(c: Call): Endpoint {
    match c
    case GetProjects => ListProjects
    case GetProject(id) => ReadProject(id)
    case CreateProject(_) => AddProject
    case DeleteProject(id) => RemoveProject(id)
    case CreateTask(pid, _) => AddTask(pid)
    case UpdateTask(tid, _) => ChangeTask(tid)
    case DeleteTask(tid) => RemoveTask(tid)
  }

  /** The HTTP method of each operation: reads are GET, creations POST, the
      task update PUT and removals DELETE. */
  function MethodOf(c: Call): (m: HttpMethod)
    ensures m == GET <==> c.GetProjects? || c.GetProject?
    ensures m == POST <==> c.CreateProject? || c.CreateTask?
    ensures m == PUT <==> c.UpdateTask?
    ensures m == DELETE <==> c.DeleteProject? || c.DeleteTask?
  {
    match c
    case GetProjects => GET
    case GetProject(_) => GET
    case CreateProject(_) => POST
    case DeleteProject(_) => DELETE
    case CreateTask(_, _) => POST
    case UpdateTask(_, _) => PUT
    case DeleteTask(_) => DELETE
  }

  /** The path of each operation, relative to the base URL: the project
      collection, one project by id, its task collection, or one task by id. */
  function PathOf(c: Call): (p: string)
    ensures |p| > 0 && p[0] == '/'
    ensures c.GetProjects? || c.CreateProject? ==> p == "/projects"
    ensures c.GetProject? || c.DeleteProject? ==> p == "/projects/" + IntToString(c.id)
    ensures c.CreateTask? ==> p == "/projects/" + IntToString(c.projectId) + "/tasks"
    ensures c.UpdateTask? || c.DeleteTask? ==> p == "/tasks/" + IntToString(c.taskId)
  {
    match c
    case GetProjects => "/projects"
    case GetProject(id) => "/projects/" + IntToString(id)
    case CreateProject(_) => "/projects"
    case DeleteProject(id) => "/projects/" + IntToString(id)
    case CreateTask(pid, _) => "/projects/" + IntToString(pid) + "/tasks"
    case UpdateTask(tid, _) => "/tasks/" + IntToString(tid)
    case DeleteTask(tid) => "/tasks/" + IntToString(tid)
  }

  function BodyOf(c: Call): Option<Body> {
    match c
    case CreateProject(dto) => Some(ProjectBody(dto))
    case CreateTask(_, dto) => Some(TaskBody(dto))
    case UpdateTask(_, dto) => Some(UpdateBody(dto))
    case _ => None
  }

  /** The config a call hands to the interceptor: the instance's base URL, the
      call's method, path and body, and no headers of its own. */
  function ConfigFor(c: Call): (cfg: RequestConfig)
    ensures cfg.baseURL == ApiUrl && cfg.headers == map[]
    ensures cfg.verb == MethodOf(c) && cfg.url == PathOf(c) && cfg.data == BodyOf(c)
  {
    RequestConfig(MethodOf(c), ApiUrl, PathOf(c), map[], BodyOf(c))
  }

  /** A token that JavaScript treats as true: present and non-empty. */
  predicate HasToken(token: Option<string>) {
    token.Some? && token.value != ""
  }

  /** The request interceptor: with a token, `headers.Authorization` becomes
      `Bearer <token>`; without one the config passes through untouched. No
      other header and no other field ever changes. */
  function Intercept(token: Option<string>, config: RequestConfig): (r: RequestConfig)
    ensures HasToken(token) ==>
      AuthorizationHeader in r.headers && r.headers[AuthorizationHeader] == BearerPrefix + token.value
    ensures !HasToken(token) ==> r == config
    ensures r.(headers := config.headers) == config
    ensures forall h :: h != AuthorizationHeader ==>
      (h in r.headers <==> h in config.headers) && (h in r.headers ==> r.headers[h] == config.headers[h])
  {
    if HasToken(token) then
      config.(headers := config.headers[AuthorizationHeader := BearerPrefix + token.value])
    else config
  }

  /** The request that leaves for call `c` when storage holds `items`. */
  function Outgoing(items: map<string, string>, c: Call): (r: RequestConfig)
    ensures r.baseURL == ApiUrl && r.verb == MethodOf(c) && r.url == PathOf(c) && r.data == BodyOf(c)
    ensures AuthorizationHeader in r.headers <==> HasToken(AuthService.TokenOf(items))
    ensures AuthorizationHeader in r.headers ==>
      r.headers == map[AuthorizationHeader := BearerPrefix + items[AuthService.TokenKey]]
  {
    Intercept(AuthService.TokenOf(items), ConfigFor(c))
  }

  /** The server's router: which operation a (method, path) pair names. */
  function Resolve(m: HttpMethod, path: string): Option<Endpoint> {
    if path == "/projects" then
      if m == GET then Some(ListProjects) else if m == POST then Some(AddProject) else None
    else if |path| > 10 && path[..10] == "/projects/" then
      var rest := path[10..];
      match ParseInt(rest)
      case Some(id) =>
        if m == GET then Some(ReadProject(id)) else if m == DELETE then Some(RemoveProject(id)) else None
      case None =>
        if m == POST && |rest| > 6 && rest[|rest| - 6..] == "/tasks" then
          match ParseInt(rest[..|rest| - 6])
          case Some(pid) => Some(AddTask(pid))
          case None => None
        else None
    else if |path| > 7 && path[..7] == "/tasks/" then
      match ParseInt(path[7..])
      case Some(id) =>
        if m == PUT then Some(ChangeTask(id)) else if m == DELETE then Some(RemoveTask(id)) else None
      case None => None
    else None
  }

  /** Every call's route names that call's operation and ids: no two
      operations, and no two ids, share a route. */
  lemma RouteRoundTrip(c: Call)
    ensures Resolve(MethodOf(c), PathOf(c)) == Some(EndpointOf(c))
  {
    match c
    case GetProjects =>
    case CreateProject(_) =>
    case GetProject(id) => ProjectRoute(id);
    case DeleteProject(id) => ProjectRoute(id);
    case CreateTask(pid, _) =>
      var digits := IntToString(pid);
      var path := "/projects/" + digits + "/tasks";
      var rest := digits + "/tasks";
      assert path == "/projects/" + rest;
      assert path[..10] == "/projects/" && path[10..] == rest;
      assert path != "/projects";
      ParseIntNonDigitEnd(rest);
      assert rest[..|rest| - 6] == digits && rest[|rest| - 6..] == "/tasks";
      ParseIntToString(pid);
    case UpdateTask(tid, _) => TaskRoute(tid);
    case DeleteTask(tid) => TaskRoute(tid);
  }

  lemma ProjectRoute(id: int)
    ensures var path := "/projects/" + IntToString(id);
      path != "/projects" && |path| > 10 && path[..10] == "/projects/" && ParseInt(path[10..]) == Some(id)
  {
    var path := "/projects/" + IntToString(id);
    assert path[10..] == IntToString(id);
    assert |path| > |"/projects"|;
    ParseIntToString(id);
  }

  lemma TaskRoute(id: int)
    ensures var path := "/tasks/" + IntToString(id);
      path != "/projects" && !(|path| > 10 && path[..10] == "/projects/") &&
      |path| > 7 && path[..7] == "/tasks/" && ParseInt(path[7..]) == Some(id)
  {
    var path := "/tasks/" + IntToString(id);
    assert path[7..] == IntToString(id);
    assert path[1] == 't';
    ParseIntToString(id);
  }

  /** The axios instance together with what it has sent so far. */
  class ApiClient {
    const storage: BrowserStorage
    var sent: seq<RequestConfig>

    constructor (storage: BrowserStorage)
      ensures this.storage == storage && sent == []
    {
      this.storage := storage;
      sent := [];
    }

    /** Issues one call: the token is read from storage at this moment. */
    method Send(c: Call)
      modifies this
      ensures sent == old(sent) + [Outgoing(storage.items, c)]
    {
      var config := ConfigFor(c);
      var token := AuthService.TokenOf(storage.items);
      config := Intercept(token, config);
      sent := sent + [config];
    }
  }
}
