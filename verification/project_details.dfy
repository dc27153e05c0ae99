/** The project page (src/components/ProjectDetails.tsx): the loaded project,
    the task form, and the handlers that create, toggle and delete tasks. The
    route's `id` is given as an integer; replies and confirmations are
    parameters. */
module ProjectDetails {
  import opened Wrappers
  import opened Types
  import opened ApiService

  const CreateTaskFailed: string := "Failed to create task"
  const UpdateTaskFailed: string := "Failed to update task"
  const DeleteTaskFailed: string := "Failed to delete task"

  /** `dueDate || undefined`: the empty date input means no due date. */
  function DueDateField(dueDate: string): (r: Option<string>)
    ensures r.None? <==> dueDate == ""
    ensures r.Some? ==> r.value == dueDate
  {
    if dueDate == "" then None else Some(dueDate)
  }

  /** The update a checkbox click sends: only `isCompleted`, flipped. */
  function TogglePayload(task: Task): (d: UpdateTaskDto)
    ensures d.title.None? && d.dueDate.None?
    ensures d.isCompleted.Some? && d.isCompleted.value != task.isCompleted
  {
    UpdateTaskDto(None, None, Some(!task.isCompleted))
  }

  class ProjectDetailsPage {
    const api: ApiClient
    const routeId: int
    var project: Option<Project>
    var showModal: bool
    var taskTitle: string
    var dueDate: string
    var loading: bool

    constructor (api: ApiClient, routeId: int)
      ensures this.api == api && this.routeId == routeId
      ensures project == None && !showModal && taskTitle == "" && dueDate == "" && !loading
    {
      this.api := api;
      this.routeId := routeId;
      project, showModal, taskTitle, dueDate, loading := None, false, "", "", false;
    }

    /** `loadProject`: fetches the route's project; a failure is only logged. */
    method LoadProject(reply: Reply<Project>)
      modifies this`project, api
      ensures api.sent == old(api.sent) + [Outgoing(api.storage.items, GetProject(routeId))]
      ensures project == if reply.Ok? then Some(reply.value) else old(project)
    {
      api.Send(GetProject(routeId));
      if reply.Ok? {
        project := Some(reply.value);
      }
    }

    /** `handleCreateTask`: nothing without a title or a loaded project;
        otherwise one create under the loaded project's id, and on success the
        form is reset and the project reloaded. */
    method HandleCreateTask(createReply: Reply<Task>, reloadReply: Reply<Project>) returns (alert: Option<string>)
      modifies this, api
      ensures old(taskTitle) == "" || old(project).None? ==>
        && api.sent == old(api.sent) && alert == None
        && project == old(project) && showModal == old(showModal) && loading == old(loading)
        && taskTitle == old(taskTitle) && dueDate == old(dueDate)
      ensures old(taskTitle) != "" && old(project).Some? ==>
        var create := CreateTask(old(project).value.id, CreateTaskDto(old(taskTitle), DueDateField(old(dueDate))));
        && !loading
        && (createReply.Ok? ==>
              && api.sent == old(api.sent) + [Outgoing(api.storage.items, create), Outgoing(api.storage.items, GetProject(routeId))]
              && !showModal && taskTitle == "" && dueDate == ""
              && project == (if reloadReply.Ok? then Some(reloadReply.value) else old(project))
              && alert == None)
        && (createReply.Err? ==>
              && api.sent == old(api.sent) + [Outgoing(api.storage.items, create)]
              && showModal == old(showModal) && taskTitle == old(taskTitle) && dueDate == old(dueDate)
              && project == old(project)
              && alert == Some(CreateTaskFailed))
    {
      alert := None;
      if taskTitle == "" || project.None? {
        return;
      }
      loading := true;
      api.Send(CreateTask(project.value.id, CreateTaskDto(taskTitle, DueDateField(dueDate))));
      if createReply.Ok? {
        showModal := false;
        taskTitle := "";
        dueDate := "";
        LoadProject(reloadReply);
      } else {
        alert := Some(CreateTaskFailed);
      }
      loading := false;
    }

    /** `handleToggleTask`: one update flipping `isCompleted`, then a reload. */
    method HandleToggleTask(task: Task, updateReply: Reply<Task>, reloadReply: Reply<Project>) returns (alert: Option<string>)
      modifies this`project, api
      ensures updateReply.Ok? ==>
        && api.sent == old(api.sent) + [Outgoing(api.storage.items, UpdateTask(task.id, TogglePayload(task))), Outgoing(api.storage.items, GetProject(routeId))]
        && project == (if reloadReply.Ok? then Some(reloadReply.value) else old(project))
        && alert == None
      ensures updateReply.Err? ==>
        && api.sent == old(api.sent) + [Outgoing(api.storage.items, UpdateTask(task.id, TogglePayload(task)))]
        && project == old(project)
        && alert == Some(UpdateTaskFailed)
    {
      alert := None;
      api.Send(UpdateTask(task.id, TogglePayload(task)));
      if updateReply.Ok? {
        LoadProject(reloadReply);
      } else {
        alert := Some(UpdateTaskFailed);
      }
    }

    /** `handleDeleteTask`: nothing unless confirmed; then one delete, and one
        reload when it succeeded. */
    method HandleDeleteTask(taskId: int, confirmed: bool, deleteReply: Reply<()>, reloadReply: Reply<Project>)
      returns (alert: Option<string>)
      modifies this`project, api
      ensures !confirmed ==> api.sent == old(api.sent) && project == old(project) && alert == None
      ensures confirmed && deleteReply.Ok? ==>
        && api.sent == old(api.sent) + [Outgoing(api.storage.items, DeleteTask(taskId)), Outgoing(api.storage.items, GetProject(routeId))]
        && project == (if reloadReply.Ok? then Some(reloadReply.value) else old(project))
        && alert == None
      ensures confirmed && deleteReply.Err? ==>
        api.sent == old(api.sent) + [Outgoing(api.storage.items, DeleteTask(taskId))] && project == old(project) && alert == Some(DeleteTaskFailed)
    {
      alert := None;
      if !confirmed {
        return;
      }
      api.Send(DeleteTask(taskId));
      if deleteReply.Ok? {
        LoadProject(reloadReply);
      } else {
        alert := Some(DeleteTaskFailed);
      }
    }
  }
}
