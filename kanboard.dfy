/**
 The records the Kanboard JSON-RPC API returns (users, projects, tasks), the outcome of
 one API call, and the snapshot a refresh cycle builds from them. Timestamps are integer
 epoch seconds.
 */
module Kanboard {

  datatype Option<+T> = None | Some(value: T)

  /** Why an API call failed: the connection, the shape of the reply (no `result`
      field, undecodable JSON), or an error reported by the server. */
  datatype Error = TransportError | ProtocolError | RemoteError

  /** The outcome of one JSON-RPC call: the decoded `result` list, or the failure. */
  datatype Result<+T> = Ok(value: T) | Err(error: Error)

  datatype User = User(id: int)

  /** `isActive` is the server's 0/1 flag. */
  datatype Project = Project(id: int, name: string, isActive: int)

  /** `description` is None when the record has no `description` key;
      `dateDue` is None when the server sends null. */
  datatype Task = Task(
    id: int,
    title: string,
    description: Option<string>,
    projectId: int,
    dateDue: Option<int>,
    isActive: int)

  const SecondsPerDay: int := 86400

  /** The due timestamp, with null read as 0. */
  function Due(t: Task): int {
    if t.dateDue.Some? then t.dateDue.value else 0
  }

  /** Python truthiness of `task["date_due"]`: both null and 0 are false. */
  predicate HasDeadline(t: Task) {
    Due(t) != 0
  }

  /** `project["is_active"] == 1` */
  predicate IsOpen(p: Project) {
    p.isActive == 1
  }

  predicate IsClosed(p: Project) {
    !IsOpen(p)
  }

  /** `task["is_active"] == 1` */
  predicate IsInProgress(t: Task) {
    t.isActive == 1
  }

  predicate IsStopped(t: Task) {
    !IsInProgress(t)
  }

  /** The collections of one refresh cycle, keyed by name; a key may be absent. */
  datatype Snapshot = Snapshot(
    users: Option<seq<User>>,
    projects: Option<seq<Project>>,
    tasks: Option<seq<Task>>)
  {
    /** `data.get("users", [])` */
    function Users(): seq<User> {
      if users.Some? then users.value else []
    }

    /** `data.get("projects", [])` */
    function Projects(): seq<Project> {
      if projects.Some? then projects.value else []
    }

    /** `data.get("tasks", [])` */
    function Tasks(): seq<Task> {
      if tasks.Some? then tasks.value else []
    }
  }
}
