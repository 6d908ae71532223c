/**
 The coordinator-based sensor platform: one refresh builds a snapshot of users,
 projects and tasks, and each sensor's state and attributes are computed from the
 latest snapshot (src/custom_components/kanboardizer/sensor.py).
 */
module Sensor {
  import opened Kanboard
  import opened Seqs

  // ---------------------------------------------------------------------------
  // The refresh cycle

  /** The API client as the coordinator uses it: the outcome of `get_all_users`,
      of `get_all_projects`, and of `get_all_tasks` for a given project id. */
  datatype Client = Client(
    getAllUsers: Result<seq<User>>,
    getAllProjects: Result<seq<Project>>,
    getAllTasks: int -> Result<seq<Task>>)

  /** The tasks one fetch returned, or `[]` when it failed; used only to state
      `Fetched` and `ProjectTaskCountOfFetch`. */
  function FetchedOrEmpty(r: Result<seq<Task>>): seq<Task> {
    if r.Ok? then r.value else []
  }

  /** The task lists fetched for each project, in project order. */
  function Fetched(projects: seq<Project>, getAllTasks: int -> Result<seq<Task>>): seq<seq<Task>> {
    seq(|projects|, i requires 0 <= i < |projects| => FetchedOrEmpty(getAllTasks(projects[i].id)))
  }

  /** The task collection of one cycle: one fetch per project, in project order,
      stopping at the first fetch that fails. */
  function FetchTasks(projects: seq<Project>, getAllTasks: int -> Result<seq<Task>>): Result<seq<Task>>
    decreases |projects|
  {
    if projects == [] then Ok([])
    else
      match FetchTasks(projects[..|projects| - 1], getAllTasks)
      case Err(e) => Err(e)
      case Ok(earlier) =>
        match getAllTasks(projects[|projects| - 1].id)
        case Err(e) => Err(e)
        case Ok(tasks) => Ok(earlier + tasks)
  }

  /** The task collection succeeds exactly when every per-project fetch does; it is then
      the concatenation of those fetches in project order, whose length is the sum of
      theirs; otherwise it fails with the error of the first project whose fetch failed. */
  lemma {:induction false} FetchTasksSpec(projects: seq<Project>, getAllTasks: int -> Result<seq<Task>>)
    ensures FetchTasks(projects, getAllTasks).Ok?
      <==> forall i :: 0 <= i < |projects| ==> getAllTasks(projects[i].id).Ok?
    ensures FetchTasks(projects, getAllTasks).Ok? ==>
      && FetchTasks(projects, getAllTasks).value == Flatten(Fetched(projects, getAllTasks))
      && |FetchTasks(projects, getAllTasks).value| == SumLengths(Fetched(projects, getAllTasks))
    ensures FetchTasks(projects, getAllTasks).Err? ==>
      exists k :: 0 <= k < |projects|
        && getAllTasks(projects[k].id) == Err(FetchTasks(projects, getAllTasks).error)
        && forall j :: 0 <= j < k ==> getAllTasks(projects[j].id).Ok?
    decreases |projects|
  {
    if projects != [] {
      var init := projects[..|projects| - 1];
      var n := |projects| - 1;
      FetchTasksSpec(init, getAllTasks);
      assert Fetched(projects, getAllTasks)[..n] == Fetched(init, getAllTasks);
      FlattenLength(Fetched(projects, getAllTasks));
      if FetchTasks(init, getAllTasks).Err? {
        var k :| 0 <= k < |init|
          && getAllTasks(init[k].id) == Err(FetchTasks(init, getAllTasks).error)
          && forall j :: 0 <= j < k ==> getAllTasks(init[j].id).Ok?;
        assert projects[k] == init[k];
      }
    }
  }

  /** `KanboardDataUpdateCoordinator._async_update_data`: users, then projects, then the
      tasks of every project appended in project order. A failing call ends the cycle with
      its error and no partial snapshot. */
  method UpdateData(client: Client) returns (r: Result<Snapshot>)
    ensures client.getAllUsers.Err? ==> r == Err(client.getAllUsers.error)
    ensures client.getAllUsers.Ok? && client.getAllProjects.Err? ==> r == Err(client.getAllProjects.error)
    ensures client.getAllUsers.Ok? && client.getAllProjects.Ok? ==>
      match FetchTasks(client.getAllProjects.value, client.getAllTasks)
      case Ok(tasks) =>
        r == Ok(Snapshot(Some(client.getAllUsers.value), Some(client.getAllProjects.value), Some(tasks)))
      case Err(e) => r == Err(e)
  {
    if client.getAllUsers.Err? {
      return Err(client.getAllUsers.error);
    }
    var users := client.getAllUsers.value;
    if client.getAllProjects.Err? {
      return Err(client.getAllProjects.error);
    }
    var projects := client.getAllProjects.value;
    var tasks: seq<Task> := [];
    var i := 0;
    while i < |projects|
      invariant 0 <= i <= |projects|
      invariant FetchTasks(projects[..i], client.getAllTasks) == Ok(tasks)
    {
      assert projects[..i + 1][..i] == projects[..i];
      var fetched := client.getAllTasks(projects[i].id);
      if fetched.Err? {
        FetchTasksPrefixErr(projects, i + 1, client.getAllTasks);
        return Err(fetched.error);
      }
      tasks := tasks + fetched.value;
      i := i + 1;
    }
    assert projects[..i] == projects;
    return Ok(Snapshot(Some(users), Some(projects), Some(tasks)));
  }

  /** Once a prefix of the projects fails, the whole collection fails with the same error. */
  lemma {:induction false} FetchTasksPrefixErr(projects: seq<Project>, i: nat, getAllTasks: int -> Result<seq<Task>>)
    requires i <= |projects|
    requires FetchTasks(projects[..i], getAllTasks).Err?
    ensures FetchTasks(projects, getAllTasks) == FetchTasks(projects[..i], getAllTasks)
    decreases |projects| - i
  {
    if i < |projects| {
      assert projects[..i + 1][..i] == projects[..i];
      FetchTasksPrefixErr(projects, i + 1, getAllTasks);
    } else {
      assert projects[..i] == projects;
    }
  }

  // ---------------------------------------------------------------------------
  // User and project sensors

  /** `KanboardUserCountSensor.state` */
  function UserCount(data: Snapshot): (n: nat)
    ensures data.users.None? ==> n == 0
    ensures data.users.Some? ==> n == |data.users.value|
  {
    |data.Users()|
  }

  /** `KanboardProjectCountSensor.state` */
  function ProjectCount(data: Snapshot): (n: nat)
    ensures data.projects.None? ==> n == 0
    ensures data.projects.Some? ==> n == |data.projects.value|
  {
    |data.Projects()|
  }

  datatype ProjectStats = ProjectStats(open: int, closed: int, total: int)

  /** `KanboardProjectCountSensor.extra_state_attributes`: the projects flagged active,
      the rest, and all of them. */
  function ProjectAttributes(data: Snapshot): (a: ProjectStats)
    ensures a.total == ProjectCount(data)
    ensures a.open == |Filter(data.Projects(), IsOpen)|
    ensures a.closed == |Filter(data.Projects(), IsClosed)|
    ensures a.open + a.closed == a.total
    ensures 0 <= a.open <= a.total && 0 <= a.closed
    ensures data.projects.None? ==> a == ProjectStats(0, 0, 0)
  {
    var projects := data.Projects();
    var open := |Filter(projects, IsOpen)|;
    FilterPartition(projects, IsOpen, IsClosed);
    ProjectStats(open, |projects| - open, |projects|)
  }

  // ---------------------------------------------------------------------------
  // Task sensor and deadline classification

  /** `KanboardTaskCountSensor.state` */
  function TaskCount(data: Snapshot): (n: nat)
    ensures data.tasks.None? ==> n == 0
    ensures data.tasks.Some? ==> n == |data.tasks.value|
  {
    |data.Tasks()|
  }

  datatype Deadline = NoDeadline | Overdue | DueSoon | Later

  /** Where a task falls relative to `now`: `due < now` is overdue; otherwise the
      whole days until the deadline (`timedelta.days`, floored) at most 2 is due soon. */
  function Classify(t: Task, now: int): (c: Deadline)
    ensures c == NoDeadline <==> !HasDeadline(t)
    ensures c == Overdue <==> HasDeadline(t) && Due(t) < now
    ensures c == DueSoon <==> HasDeadline(t) && now <= Due(t) < now + 3 * SecondsPerDay
    ensures c == Later <==> HasDeadline(t) && now + 3 * SecondsPerDay <= Due(t)
  {
    if !HasDeadline(t) then NoDeadline
    else if Due(t) < now then Overdue
    else if (Due(t) - now) / SecondsPerDay <= 2 then DueSoon
    else Later
  }

  function OverdueAt(now: int): Task -> bool {
    t => Classify(t, now) == Overdue
  }

  function DueSoonAt(now: int): Task -> bool {
    t => Classify(t, now) == DueSoon
  }

  function Title(t: Task): string {
    t.title
  }

  datatype TaskStats = TaskStats(
    inProgress: int,
    stopped: int,
    total: int,
    dueSoon: seq<string>,
    overdue: seq<string>)

  /** The loop of `KanboardTaskCountSensor.extra_state_attributes`: walks the tasks in
      order, appending the title of each overdue task to `overdue` and of each task due
      soon to `dueSoon`. */
  method ClassifyDeadlines(tasks: seq<Task>, now: int) returns (dueSoon: seq<string>, overdue: seq<string>)
    ensures dueSoon == Map(Filter(tasks, DueSoonAt(now)), Title)
    ensures overdue == Map(Filter(tasks, OverdueAt(now)), Title)
    ensures |dueSoon| + |overdue| <= |tasks|
  {
    dueSoon, overdue := [], [];
    for i := 0 to |tasks|
      invariant dueSoon == Map(Filter(tasks[..i], DueSoonAt(now)), Title)
      invariant overdue == Map(Filter(tasks[..i], OverdueAt(now)), Title)
    {
      FilterPrefix(tasks, i, DueSoonAt(now));
      FilterPrefix(tasks, i, OverdueAt(now));
      assert Map([tasks[i]], Title) == [tasks[i].title];
      assert OverdueAt(now)(tasks[i]) == (Classify(tasks[i], now) == Overdue);
      assert DueSoonAt(now)(tasks[i]) == (Classify(tasks[i], now) == DueSoon);
      match Classify(tasks[i], now)
      case Overdue =>
        MapConcat(Filter(tasks[..i], OverdueAt(now)), [tasks[i]], Title);
        overdue := overdue + [tasks[i].title];
      case DueSoon =>
        MapConcat(Filter(tasks[..i], DueSoonAt(now)), [tasks[i]], Title);
        dueSoon := dueSoon + [tasks[i].title];
      case _ =>
    }
    assert tasks[..|tasks|] == tasks;
    FilterDisjoint(tasks, DueSoonAt(now), OverdueAt(now));
  }

  /** `KanboardTaskCountSensor.extra_state_attributes` at time `now`. */
  method TaskAttributes(data: Snapshot, now: int) returns (a: TaskStats)
    ensures a.total == TaskCount(data)
    ensures a.inProgress == |Filter(data.Tasks(), IsInProgress)|
    ensures a.stopped == |Filter(data.Tasks(), IsStopped)|
    ensures a.inProgress + a.stopped == a.total
    ensures 0 <= a.inProgress <= a.total
    ensures a.dueSoon == Map(Filter(data.Tasks(), DueSoonAt(now)), Title)
    ensures a.overdue == Map(Filter(data.Tasks(), OverdueAt(now)), Title)
    ensures |a.dueSoon| + |a.overdue| <= a.total
    ensures data.tasks.None? ==> a == TaskStats(0, 0, 0, [], [])
  {
    var tasks := data.Tasks();
    var inProgress := |Filter(tasks, IsInProgress)|;
    FilterPartition(tasks, IsInProgress, IsStopped);
    var dueSoon, overdue := ClassifyDeadlines(tasks, now);
    a := TaskStats(inProgress, |tasks| - inProgress, |tasks|, dueSoon, overdue);
  }

  /** The `overdue` list holds the title of every task due before `now` and nothing else;
      the `due_soon` list holds the title of every task due from `now` up to, not
      including, three whole days later, and nothing else. A task without a deadline
      contributes to neither. */
  lemma DeadlineTitles(tasks: seq<Task>, now: int)
    ensures forall t :: t in tasks && HasDeadline(t) && Due(t) < now ==>
      t.title in Map(Filter(tasks, OverdueAt(now)), Title)
    ensures forall t :: t in tasks && HasDeadline(t) && now <= Due(t) < now + 3 * SecondsPerDay ==>
      t.title in Map(Filter(tasks, DueSoonAt(now)), Title)
    ensures forall s :: s in Map(Filter(tasks, OverdueAt(now)), Title) ==>
      exists t :: t in tasks && HasDeadline(t) && Due(t) < now && t.title == s
    ensures forall s :: s in Map(Filter(tasks, DueSoonAt(now)), Title) ==>
      exists t :: t in tasks && HasDeadline(t) && now <= Due(t) < now + 3 * SecondsPerDay && t.title == s
  {
    FilterMembers(tasks, OverdueAt(now));
    FilterMembers(tasks, DueSoonAt(now));
    MapMembers(Filter(tasks, OverdueAt(now)), Title);
    MapMembers(Filter(tasks, DueSoonAt(now)), Title);
  }

  // ---------------------------------------------------------------------------
  // Per-project task sensor

  function InProject(projectId: int): Task -> bool {
    (t: Task) => t.projectId == projectId
  }

  function InProgressInProject(projectId: int): Task -> bool {
    (t: Task) => t.projectId == projectId && IsInProgress(t)
  }

  /** `KanboardProjectTaskSensor.state`: the tasks whose project id matches. */
  function ProjectTaskCount(data: Snapshot, projectId: int): (n: nat)
    ensures n == |Filter(data.Tasks(), InProject(projectId))|
    ensures n <= TaskCount(data)
    ensures data.tasks.None? ==> n == 0
  {
    |Filter(data.Tasks(), InProject(projectId))|
  }

  datatype ProjectTaskStats = ProjectTaskStats(inProgress: int, stopped: int, total: int)

  /** `KanboardProjectTaskSensor.extra_state_attributes` */
  function ProjectTaskAttributes(data: Snapshot, projectId: int): (a: ProjectTaskStats)
    ensures a.total == ProjectTaskCount(data, projectId) <= TaskCount(data)
    ensures a.inProgress == |Filter(data.Tasks(), InProgressInProject(projectId))|
    ensures a.stopped == |Filter(Filter(data.Tasks(), InProject(projectId)), IsStopped)|
    ensures a.inProgress + a.stopped == a.total
    ensures 0 <= a.inProgress <= a.total
  {
    var tasks := Filter(data.Tasks(), InProject(projectId));
    var inProgress := |Filter(tasks, IsInProgress)|;
    FilterFilter(data.Tasks(), InProject(projectId), IsInProgress, InProgressInProject(projectId));
    FilterPartition(tasks, IsInProgress, IsStopped);
    ProjectTaskStats(inProgress, |tasks| - inProgress, |tasks|)
  }

  /** Concatenating lists whose tasks each belong to one project, with distinct project
      ids, then selecting project `ids[k]` gives back exactly the size of list `k`. */
  lemma {:induction false} CountOfPart(ss: seq<seq<Task>>, ids: seq<int>, k: nat)
    requires k < |ss| == |ids|
    requires forall i, j :: 0 <= i < j < |ids| ==> ids[i] != ids[j]
    requires forall i :: 0 <= i < |ss| ==> forall t :: t in ss[i] ==> t.projectId == ids[i]
    ensures |Filter(Flatten(ss), InProject(ids[k]))| == |ss[k]|
    decreases |ss|
  {
    var n := |ss| - 1;
    var p := InProject(ids[k]);
    assert Flatten(ss) == Flatten(ss[..n]) + ss[n];
    FilterConcat(Flatten(ss[..n]), ss[n], p);
    if k < n {
      CountOfPart(ss[..n], ids[..n], k);
      assert ids[n] != ids[k];
      FilterNone(ss[n], p);
    } else {
      forall t | t in Flatten(ss[..n]) ensures !p(t) {
        FlattenMembers(ss[..n], t);
        var i :| 0 <= i < n && t in ss[..n][i];
        assert ss[..n][i] == ss[i];
        assert ids[i] != ids[n];
      }
      FilterNone(Flatten(ss[..n]), p);
      FilterAll(ss[n], p);
    }
  }

  /** For a snapshot the coordinator built, the sensor of the project at position `k`
      counts exactly the tasks fetched for it, provided project ids are distinct and
      `get_all_tasks(id)` returns tasks of project `id` only. */
  lemma ProjectTaskCountOfFetch(data: Snapshot, projects: seq<Project>, getAllTasks: int -> Result<seq<Task>>, k: nat)
    requires data.tasks == Some(Flatten(Fetched(projects, getAllTasks)))
    requires k < |projects|
    requires forall i, j :: 0 <= i < j < |projects| ==> projects[i].id != projects[j].id
    requires forall i :: 0 <= i < |projects| ==>
      forall t :: t in FetchedOrEmpty(getAllTasks(projects[i].id)) ==> t.projectId == projects[i].id
    ensures ProjectTaskCount(data, projects[k].id) == |FetchedOrEmpty(getAllTasks(projects[k].id))|
  {
    var ids := seq(|projects|, i requires 0 <= i < |projects| => projects[i].id);
    CountOfPart(Fetched(projects, getAllTasks), ids, k);
  }
}
