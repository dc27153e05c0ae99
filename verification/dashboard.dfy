/** The project list page (src/components/Dashboard.tsx): its state fields and
    the handlers that change them and issue requests. Each handler runs as one
    step; the server's replies and the user's confirmation are parameters. */
module Dashboard {
  import opened Wrappers
  import opened Types
  import opened ApiService

  const TitleTooShort: string := "Title must be at least 3 characters"
  const CreateFailed: string := "Failed to create project"
  const DeleteFailed: string := "Failed to delete project"

  /** `err.response?.data?.message || 'Failed to create project'`. */
  function CreateErrorText(e: HttpError): (s: string)
    ensures s != ""
    ensures e.message.Some? && e.message.value != "" ==> s == e.message.value
    ensures e.message.None? || e.message.value == "" ==> s == CreateFailed
  {
    if e.message.Some? && e.message.value != "" then e.message.value else CreateFailed
  }

  /** The tasks of a list that are completed, in order (`filter(t => t.isCompleted)`):
      every completed task with its multiplicity, and nothing else. */
  function CompletedTasks(tasks: seq<Task>): (r: seq<Task>)
    ensures |r| <= |tasks|
    ensures multiset(r) <= multiset(tasks)
    ensures forall t: Task :: t.isCompleted ==> multiset(r)[t] == multiset(tasks)[t]
    ensures forall i :: 0 <= i < |r| ==> r[i].isCompleted
  {
    if tasks == [] then []
    else
      var rest := CompletedTasks(tasks[1..]);
      assert multiset(tasks) == multiset{tasks[0]} + multiset(tasks[1..]) by {
        assert tasks == [tasks[0]] + tasks[1..];
      }
      if tasks[0].isCompleted then
        assert multiset([tasks[0]] + rest) == multiset{tasks[0]} + multiset(rest);
        [tasks[0]] + rest
      else rest
  }

  /** A card shows as many completed tasks as tasks exactly when every task is completed. */
  lemma {:induction false} AllCompletedIffFullCount(tasks: seq<Task>)
    ensures |CompletedTasks(tasks)| == |tasks| <==> forall i :: 0 <= i < |tasks| ==> tasks[i].isCompleted
    decreases |tasks|
  {
    if tasks != [] {
      AllCompletedIffFullCount(tasks[1..]);
      assert forall i :: 1 <= i < |tasks| ==> tasks[i] == tasks[1..][i - 1];
    }
  }

  /** A card's "N tasks" and "M completed". */
  function CardCounts(p: Project): (counts: (nat, nat))
    ensures counts.0 == |p.tasks|
    ensures counts.1 == |CompletedTasks(p.tasks)| && counts.1 <= counts.0
  {
    (|p.tasks|, |CompletedTasks(p.tasks)|)
  }

  class DashboardPage {
    const api: ApiClient
    var projects: seq<Project>
    var showModal: bool
    var title: string
    var description: string
    var loading: bool
    var error: string

    constructor (api: ApiClient)
      ensures this.api == api
      ensures projects == [] && !showModal && title == "" && description == "" && !loading && error == ""
    {
      this.api := api;
      projects, showModal, title, description, loading, error := [], false, "", "", false, "";
    }

    /** `loadProjects`: a failed list request is only logged. */
    method LoadProjects(reply: Reply<seq<Project>>)
      modifies this`projects, api
      ensures api.sent == old(api.sent) + [Outgoing(api.storage.items, GetProjects)]
      ensures projects == if reply.Ok? then reply.value else old(projects)
    {
      api.Send(GetProjects);
      if reply.Ok? {
        projects := reply.value;
      }
    }

    /** `handleCreateProject`: a title shorter than three characters is refused
        before any request; otherwise the project is created, and on success the
        form is reset and the list reloaded. */
    method HandleCreateProject(createReply: Reply<Project>, reloadReply: Reply<seq<Project>>)
      modifies this, api
      ensures var dto := CreateProjectDto(old(title), Some(old(description)));
        if |old(title)| < 3 then
          && error == TitleTooShort
          && api.sent == old(api.sent)
          && projects == old(projects) && showModal == old(showModal) && loading == old(loading)
          && title == old(title) && description == old(description)
        else if createReply.Ok? then
          && api.sent == old(api.sent) + [Outgoing(api.storage.items, CreateProject(dto)), Outgoing(api.storage.items, GetProjects)]
          && !showModal && title == "" && description == "" && error == ""
          && projects == (if reloadReply.Ok? then reloadReply.value else old(projects))
          && !loading
        else
          && api.sent == old(api.sent) + [Outgoing(api.storage.items, CreateProject(dto))]
          && error == CreateErrorText(createReply.error)
          && showModal == old(showModal) && title == old(title) && description == old(description)
          && projects == old(projects)
          && !loading
    {
      error := "";
      if |title| < 3 {
        error := TitleTooShort;
        return;
      }
      loading := true;
      api.Send(CreateProject(CreateProjectDto(title, Some(description))));
      if createReply.Ok? {
        showModal := false;
        title := "";
        description := "";
        LoadProjects(reloadReply);
      } else {
        error := CreateErrorText(createReply.error);
      }
      loading := false;
    }

    /** `handleDeleteProject`: nothing happens unless confirmed; then one delete,
        and one reload when it succeeded. A failure raises an alert. */
    method HandleDeleteProject(id: int, confirmed: bool, deleteReply: Reply<()>, reloadReply: Reply<seq<Project>>)
      returns (alert: Option<string>)
      modifies this`projects, api
      ensures !confirmed ==> api.sent == old(api.sent) && projects == old(projects) && alert == None
      ensures confirmed && deleteReply.Ok? ==>
        && api.sent == old(api.sent) + [Outgoing(api.storage.items, DeleteProject(id)), Outgoing(api.storage.items, GetProjects)]
        && projects == (if reloadReply.Ok? then reloadReply.value else old(projects))
        && alert == None
      ensures confirmed && deleteReply.Err? ==>
        api.sent == old(api.sent) + [Outgoing(api.storage.items, DeleteProject(id))] && projects == old(projects) && alert == Some(DeleteFailed)
    {
      alert := None;
      if !confirmed {
        return;
      }
      api.Send(DeleteProject(id));
      if deleteReply.Ok? {
        LoadProjects(reloadReply);
      } else {
        alert := Some(DeleteFailed);
      }
    }
  }
}
