/** The records exchanged with the server (src/types/index.ts). Optional
    fields become `Option`; numeric ids are integers. */
module Types {
  import opened Wrappers

  datatype User = User(username: string, email: string)

  datatype AuthResponse = AuthResponse(token: string, username: string, email: string)

  datatype LoginCredentials = LoginCredentials(email: string, password: string)

  datatype RegisterCredentials = RegisterCredentials(username: string, email: string, password: string)

  datatype Task = Task(
    id: int,
    title: string,
    dueDate: Option<string>,
    isCompleted: bool,
    createdAt: string,
    projectId: int)

  datatype Project = Project(
    id: int,
    title: string,
    description: Option<string>,
    createdAt: string,
    tasks: seq<Task>)

  datatype CreateProjectDto = CreateProjectDto(title: string, description: Option<string>)

  datatype CreateTaskDto = CreateTaskDto(title: string, dueDate: Option<string>)

  datatype UpdateTaskDto = UpdateTaskDto(title: Option<string>, dueDate: Option<string>, isCompleted: Option<bool>)

  /** A rejected request: the `message` of the server's error body, when it sent one. */
  datatype HttpError = HttpError(message: Option<string>)

  /** What the server answered to one request: its data, or an error that the
      awaiting code receives as a thrown exception. */
  type Reply<T> = Result<T, HttpError>

  /** The profile `{username, email}` that login and register keep from a reply. */
  function UserOf(resp: AuthResponse): (u: User)
    ensures u.username == resp.username && u.email == resp.email
  {
    User(resp.username, resp.email)
  }
}
