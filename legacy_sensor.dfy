/**
 The older, self-polling sensor platform (custom_components/kanboardizer/sensor.py):
 each sensor keeps its own state and attribute dictionary and replaces them from one
 JSON-RPC call per update; a failed call leaves both as they were. The deadline
 sensor is meant to fire an event on the bus for every overdue task; as written it
 fires none (`DeadlineSensor.UpdateAsWritten`, `OverdueTaskScenario`).
 */
module LegacySensor {
  import opened Kanboard
  import opened Seqs

  /** The values the sensors put in their attribute dictionaries. */
  datatype AttrValue = Count(n: int) | TaskList(tasks: seq<Task>)

  /** A `kanboardizer_task_due` event and its payload. */
  datatype Notification = Notification(eventType: string, taskId: int, title: string, dueDate: int)

  const TaskDueEvent: string := "kanboardizer_task_due"

  function Notify(t: Task): Notification {
    Notification(TaskDueEvent, t.id, t.title, Due(t))
  }

  /** `task["date_due"] < current_time` */
  function OverdueBy(now: int): Task -> bool {
    t => Due(t) < now
  }

  /** The events one deadline update fires, in list order. */
  function OverdueNotifications(deadlines: seq<Task>, now: int): seq<Notification> {
    Map(Filter(deadlines, OverdueBy(now)), Notify)
  }

  /** Of the tasks kept for their deadline, one notification per overdue task, in list
      order, carrying that task's id, title and due date; the rest fire nothing. */
  lemma OverdueNotificationsSpec(data: seq<Task>, now: int)
    ensures var kept := Filter(data, HasDeadline);
      var fired := OverdueNotifications(kept, now);
      && |fired| == |Filter(kept, OverdueBy(now))| <= |kept|
      && (forall n :: n in fired ==>
            exists t :: t in data && HasDeadline(t) && Due(t) < now && n == Notify(t))
      && (forall t :: t in data && HasDeadline(t) && Due(t) < now ==> Notify(t) in fired)
  {
    var kept := Filter(data, HasDeadline);
    FilterMembers(data, HasDeadline);
    FilterMembers(kept, OverdueBy(now));
    MapMembers(Filter(kept, OverdueBy(now)), Notify);
  }

  /** `hass.bus`: the events fired so far, in order. */
  class EventBus {
    var fired: seq<Notification>

    constructor ()
      ensures fired == []
    {
      fired := [];
    }

    /** `hass.bus.fire` */
    method Fire(n: Notification)
      modifies this
      ensures fired == old(fired) + [n]
    {
      fired := fired + [n];
    }
  }

  /** `KanboardizerUserCountSensor`: the number of users. */
  class UserCountSensor {
    var state: Option<int>
    var attributes: map<string, AttrValue>

    constructor ()
      ensures state == None && attributes == map[]
    {
      state := None;
      attributes := map[];
    }

    /** `update`, given the outcome of `getAllUsers`. */
    method Update(response: Result<seq<User>>)
      modifies this
      ensures response.Ok? ==> state == Some(|response.value|)
      ensures response.Err? ==> state == old(state)
      ensures attributes == old(attributes)
    {
      if response.Ok? {
        state := Some(|response.value|);
      }
    }
  }

  /** `KanboardizerProjectCountSensor`: the number of projects, and how many are open. */
  class ProjectCountSensor {
    var state: Option<int>
    var attributes: map<string, AttrValue>

    constructor ()
      ensures state == None && attributes == map[]
    {
      state := None;
      attributes := map[];
    }

    /** `update`, given the outcome of `getAllProjects`. */
    method Update(response: Result<seq<Project>>)
      modifies this
      ensures response.Ok? ==>
        && state == Some(|response.value|)
        && attributes == map["total_projects" := Count(|response.value|),
                             "open_projects" := Count(|Filter(response.value, IsOpen)|)]
        && |Filter(response.value, IsOpen)| <= |response.value|
      ensures response.Err? ==> state == old(state) && attributes == old(attributes)
    {
      if response.Ok? {
        var data := response.value;
        state := Some(|data|);
        attributes := map["total_projects" := Count(|data|)];
        attributes := attributes["open_projects" := Count(|Filter(data, IsOpen)|)];
      }
    }
  }

  /** `KanboardizerTaskCountSensor`: the number of tasks. */
  class TaskCountSensor {
    var state: Option<int>
    var attributes: map<string, AttrValue>

    constructor ()
      ensures state == None && attributes == map[]
    {
      state := None;
      attributes := map[];
    }

    /** `update`, given the outcome of `getAllTasks`. */
    method Update(response: Result<seq<Task>>)
      modifies this
      ensures response.Ok? ==> state == Some(|response.value|)
      ensures response.Err? ==> state == old(state)
      ensures attributes == old(attributes)
    {
      if response.Ok? {
        state := Some(|response.value|);
      }
    }
  }

  /** `KanboardizerDeadlineSensor`: the tasks that have a deadline. It is meant to put
      an event on the bus for each of them that is overdue; `UpdateAsWritten` is the
      code as it stands, which fires none, and `Update` the intended behaviour. */
  class DeadlineSensor {
    var state: Option<int>
    var attributes: map<string, AttrValue>
    const bus: EventBus

    constructor (bus: EventBus)
      ensures state == None && attributes == map[] && this.bus == bus
    {
      state := None;
      attributes := map[];
      this.bus := bus;
    }

    /** `update` as the source has it. Because `time` is imported from `_datetime`
        it names the `datetime.time` class, which has no `time()` function: the clock
        read raises after the state and attributes are set, the handler logs it, and no
        event is ever fired. */
    method UpdateAsWritten(response: Result<seq<Task>>)
      modifies this
      ensures response.Ok? ==>
        && state == Some(|Filter(response.value, HasDeadline)|)
        && attributes == map["deadlines" := TaskList(Filter(response.value, HasDeadline))]
      ensures response.Err? ==> state == old(state) && attributes == old(attributes)
      ensures bus.fired == old(bus.fired)
    {
      if response.Ok? {
        var deadlines := Filter(response.value, HasDeadline);
        state := Some(|deadlines|);
        attributes := map["deadlines" := TaskList(deadlines)];
      }
    }

    /** `update` as intended, with `currentTime` the epoch seconds the clock returns:
        the tasks with a deadline are kept in order, then one event is fired for each
        kept task due before `currentTime`. */
    method Update(response: Result<seq<Task>>, currentTime: int)
      modifies this, bus
      ensures response.Ok? ==>
        && state == Some(|Filter(response.value, HasDeadline)|)
        && attributes == map["deadlines" := TaskList(Filter(response.value, HasDeadline))]
        && bus.fired == old(bus.fired) + OverdueNotifications(Filter(response.value, HasDeadline), currentTime)
      ensures response.Err? ==>
        state == old(state) && attributes == old(attributes) && bus.fired == old(bus.fired)
    {
      if response.Ok? {
        var deadlines := Filter(response.value, HasDeadline);
        state := Some(|deadlines|);
        attributes := map["deadlines" := TaskList(deadlines)];
        for i := 0 to |deadlines|
          invariant state == Some(|deadlines|)
          invariant attributes == map["deadlines" := TaskList(deadlines)]
          invariant bus.fired == old(bus.fired) + OverdueNotifications(deadlines[..i], currentTime)
        {
          FilterPrefix(deadlines, i, OverdueBy(currentTime));
          assert OverdueBy(currentTime)(deadlines[i]) == (Due(deadlines[i]) < currentTime);
          if Due(deadlines[i]) < currentTime {
            MapConcat(Filter(deadlines[..i], OverdueBy(currentTime)), [deadlines[i]], Notify);
            assert Map([deadlines[i]], Notify) == [Notify(deadlines[i])];
            bus.Fire(Notify(deadlines[i]));
          }
        }
        assert deadlines[..|deadlines|] == deadlines;
      }
    }
  }

  /** One overdue task: the update as written fires nothing, the intended update fires
      its notification. */
  method OverdueTaskScenario() {
    var task := Task(5, "Report", None, 1, Some(100), 1);
    assert Filter([task], HasDeadline) == [task] by {
      FilterSingleton(task, HasDeadline);
    }
    assert OverdueNotifications([task], 200) == [Notification(TaskDueEvent, 5, "Report", 100)] by {
      FilterSingleton(task, OverdueBy(200));
      assert OverdueBy(200)(task);
      assert Map([task], Notify) == [Notify(task)];
    }

    var bus := new EventBus();
    var asWritten := new DeadlineSensor(bus);
    asWritten.UpdateAsWritten(Ok([task]));
    assert asWritten.state == Some(1);
    assert bus.fired == [];

    var intended := new DeadlineSensor(bus);
    intended.Update(Ok([task]), 200);
    assert intended.state == Some(1);
    assert bus.fired == [Notification(TaskDueEvent, 5, "Report", 100)];
  }
}
