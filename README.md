# Kanboardizer in Dafny

A model of kanboardizer, a Home Assistant integration for a Kanboard server. The
integration polls Kanboard's JSON-RPC API and publishes what it gets back as sensors
and as a calendar. The model covers the parts that do the bookkeeping on the fetched
collections:

- **The refresh cycle** (`Sensor.UpdateData`). The coordinator fetches the users, then
  the projects, then the tasks of each project in project order. It concatenates the
  task lists into one snapshot `{users, projects, tasks}`.
- **The sensors over a snapshot** (`Sensor`):
  - the user, project and task counts;
  - open vs closed projects;
  - in-progress vs stopped tasks;
  - the `due_soon` / `overdue` classification of deadlines;
  - the per-project task breakdown.

  A collection missing from the snapshot reads as the empty list.
- **The calendar** (`Calendar`). Each task due inside a queried window becomes a
  one-hour event. The events are sorted stably by start. The "next event" is the
  first one in the coming week. The model assumes the calendar module imports; as
  written its `event` annotation fails on import (see "## Left out").
- **The older self-polling sensors** (`LegacySensor`). These are classes that keep
  `state` and an attribute dictionary and replace them on each update. A failed call
  leaves both unchanged. The deadline sensor is meant to fire one event on the bus per
  overdue task. As written, it fires none; see "## Findings".

Records are datatypes with integer fields. Time is integer epoch seconds. Each API call
is replaced by the value it returns, `Result<seq<...>>`: a decoded `result` list, or a
transport, protocol or remote error. The current time is a parameter. The event bus is
an object that holds the sequence of fired events.

Files:
- `kanboard.dfy`: the records and the snapshot.
- `seqs.dfy`: list comprehensions (`Filter`, `Map`) and repeated `extend` (`Flatten`),
  with their lemmas.
- `sensor.dfy`: src/custom_components/kanboardizer/sensor.py.
- `calendar.dfy`: src/custom_components/kanboardizer/calendar.py.
- `legacy_sensor.dfy`: custom_components/kanboardizer/sensor.py.

Points where the code's behaviour is easy to misread:
- A task due exactly at `now` counts as due soon. The code tests `due < now` first and
  the day count only in the `elif` (src/custom_components/kanboardizer/sensor.py:153-155).
- "Due soon" means at most 2 whole days away, floored as `timedelta.days` floors them.
  For a non-negative gap this is the same as `now <= due < now + 3 * 86400`
  (`Sensor.Classify`).
- The newer sensor platform fires no events. It exposes `due_soon` and `overdue` as
  attributes. Only the older deadline sensor has code that fires events, and only for
  overdue tasks.
- `_async_update_data` catches nothing. A failing call ends the cycle with that call's
  error, and the cycle yields no partial snapshot. The Home Assistant coordinator base
  class keeps the previous snapshot; that class is not part of this model.

## Model

| member | source | states |
|---|---|---|
| `Sensor.FetchTasksSpec` | src/custom_components/kanboardizer/sensor.py:72-78 | The task collection succeeds iff every per-project fetch succeeds. It is then the concatenation of the fetches in project order, and its length is the sum of their lengths. Otherwise it fails with the error of the first project whose fetch failed. |
| `Sensor.UpdateData` | src/custom_components/kanboardizer/sensor.py:57-80 | A failing user or project call ends the cycle with its error. Otherwise the result is the snapshot of users, projects and the task collection, or that collection's error. The loop is proved against the collection's definition. |
| `Sensor.UserCount` | src/custom_components/kanboardizer/sensor.py:91-94 | The state is the number of users, and 0 when the `users` key is absent. |
| `Sensor.ProjectCount` | src/custom_components/kanboardizer/sensor.py:105-109 | The state is the number of projects, and 0 when the key is absent. |
| `Sensor.ProjectAttributes` | src/custom_components/kanboardizer/sensor.py:111-122 | `open` counts exactly the projects with `is_active == 1`, and `closed` exactly the others. `open + closed == total == state`, and `0 <= open <= total`. All are 0 when the key is absent. |
| `Sensor.TaskCount` | src/custom_components/kanboardizer/sensor.py:133-136 | The state is the number of tasks, and 0 when the key is absent. |
| `Sensor.Classify` | src/custom_components/kanboardizer/sensor.py:150-156 | The task has no class iff its `date_due` is null or 0. It is overdue iff `due < now`. It is due soon iff `now <= due < now + 3 days`, which is what the floored day count `<= 2` means. Later iff `due >= now + 3 days`. Each task gets exactly one class. |
| `Sensor.ClassifyDeadlines` | src/custom_components/kanboardizer/sensor.py:147-156 | The loop builds `due_soon` as the titles of the due-soon tasks, and `overdue` as the titles of the overdue tasks, each in task order. The two lists hold at most as many entries as there are tasks. |
| `Sensor.TaskAttributes` | src/custom_components/kanboardizer/sensor.py:138-164 | `in_progress` counts exactly the tasks with `is_active == 1`, and `stopped` the others. `in_progress + stopped == total == state`, and `0 <= in_progress <= total`. `due_soon` and `overdue` are as above, and the two lists together hold at most `total` titles. Everything is 0 or empty when the key is absent. |
| `Sensor.DeadlineTitles` | src/custom_components/kanboardizer/sensor.py:150-156 | Every task due before `now` has its title in `overdue`, and every title in `overdue` belongs to such a task. The same holds for `due_soon` with `now <= due < now + 3 days`. A task without a deadline adds to neither list. |
| `Sensor.ProjectTaskCount` | src/custom_components/kanboardizer/sensor.py:176-181 | The state counts exactly the tasks whose `project_id` matches. It is at most the overall task count, and 0 when the key is absent. |
| `Sensor.ProjectTaskAttributes` | src/custom_components/kanboardizer/sensor.py:183-196 | `total` is the sensor's state. `in_progress` counts exactly the active tasks of the project. `stopped` counts the project's other tasks. `in_progress + stopped == total <= overall task count`. |
| `Sensor.ProjectTaskCountOfFetch` | src/custom_components/kanboardizer/sensor.py:72-78 | Take a snapshot whose tasks were built by the refresh loop, with distinct project ids, where each fetch returns only tasks of its own project. Then each project's sensor state equals the number of tasks fetched for that project. |
| `Calendar.WindowEventsSpec` | src/custom_components/kanboardizer/calendar.py:60-72 | Each event lies in `[start_date, end_date]`, ends one hour after it starts, and is the event of a task in the window. Every task with a deadline in the window yields its event, one per task. So the events number at most the tasks. |
| `Calendar.SortSpec` | src/custom_components/kanboardizer/calendar.py:74 | The sort by start returns a list sorted non-decreasingly by start that is a permutation of its input. |
| `Calendar.SortStable` | src/custom_components/kanboardizer/calendar.py:74 | The sort is stable: for every start time, the events with that start keep their input order. |
| `Calendar.SortHead` | src/custom_components/kanboardizer/calendar.py:74 | The head of the sorted list is the earliest-starting input event. Among equally early events it is the first one in input order. |
| `Calendar.GetEvents` | src/custom_components/kanboardizer/calendar.py:51-74 | The result is the stable sort of the window's events. It is sorted, a permutation of one event per task in the window, and no longer than the task list. Each event is `ToEvent` of a task in the window: summary `"Task Due: " + title`, start at the deadline, end one hour later, description or `""`. It is empty when there are no tasks or no `tasks` key. |
| `Calendar.NextEvent` | src/custom_components/kanboardizer/calendar.py:33-40 | The result is None iff no task falls due in `[now, now + 7 days]`. Otherwise it is the earliest event of that window, and among equally early ones the first in task order. |
| `LegacySensor.OverdueNotificationsSpec` | custom_components/kanboardizer/sensor.py:177-190 | The deadline sensor keeps exactly the tasks with a truthy `date_due`. For each kept task with `date_due` before the current time it fires exactly one notification, carrying that task's id, title and due date. No other task fires one. |
| `LegacySensor.EventBus.Fire` | custom_components/kanboardizer/sensor.py:186-190 | Firing appends the event to the bus's sequence. |
| `LegacySensor.UserCountSensor.constructor` | custom_components/kanboardizer/sensor.py:33-39 | A new sensor has state None and empty attributes. |
| `LegacySensor.UserCountSensor.Update` | custom_components/kanboardizer/sensor.py:63-82 | A successful call sets the state to the number of users returned. A failed call leaves the state as it was. The attributes never change. |
| `LegacySensor.ProjectCountSensor.constructor` | custom_components/kanboardizer/sensor.py:33-39 | A new sensor has state None and empty attributes. |
| `LegacySensor.ProjectCountSensor.Update` | custom_components/kanboardizer/sensor.py:96-116 | A successful call sets `state == total_projects == len(data)` and `open_projects` to the count of `is_active == 1`, which is at most the total. A failed call leaves state and attributes unchanged. |
| `LegacySensor.TaskCountSensor.constructor` | custom_components/kanboardizer/sensor.py:33-39 | A new sensor has state None and empty attributes. |
| `LegacySensor.TaskCountSensor.Update` | custom_components/kanboardizer/sensor.py:130-148 | A successful call sets the state to the number of tasks returned. A failed call leaves the state as it was. The attributes never change. |
| `LegacySensor.DeadlineSensor.constructor` | custom_components/kanboardizer/sensor.py:33-39 | A new sensor has state None and empty attributes, and is attached to the given bus. |
| `LegacySensor.DeadlineSensor.UpdateAsWritten` | custom_components/kanboardizer/sensor.py:162-193 | This is the code as written. A successful call keeps the tasks with a deadline in order, as the `deadlines` attribute, and the state is their count. The bus receives nothing. A failed call changes nothing. |
| `LegacySensor.DeadlineSensor.Update` | custom_components/kanboardizer/sensor.py:162-193 | This is the intended code. It sets the same state and attributes, then appends to the bus one notification per kept task due before the current time, in list order. A failed call changes nothing. |

## Left out

- The JSON-RPC calls (`requests.post`, the `kanboard.Client` methods) are foreign I/O. Each call is replaced by the `Result` it produces, and in the coordinator by a `Client` value that holds those results.
- The Home Assistant machinery is framework lifecycle, not bookkeeping. This covers entity base classes, `DataUpdateCoordinator` including its retention of the last good snapshot, `async_add_executor_job`, platform setup, entity names and unique ids.
- The `Throttle` decorator and the update intervals are library timing behaviour.
- `datetime.now()`, `datetime.fromtimestamp` and `time.time()` become an integer epoch-seconds parameter. Local time zones, DST, sub-second precision, and naive-vs-aware comparison of the calendar bounds are not modelled.
- Sensor.Classify: accepts every integer `date_due`. The source raises (`ValueError`, `OverflowError` or `OSError` from `datetime.fromtimestamp`) for a timestamp outside the platform's range, for example past year 9999. The `extra_state_attributes` property then raises instead of returning. The model does not capture that failure.
- Calendar.GetEvents: accepts every integer `date_due`. The source raises from `datetime.fromtimestamp` for a timestamp outside the platform's range, or from `due_date + timedelta(hours=1)` when that sum passes `datetime.max`. `_get_events` then raises instead of returning events. The model does not capture either failure.
- Calendar.NextEvent: assumes src/custom_components/kanboardizer/calendar.py imports. As written, line 4 binds `OPTIONAL` to `argparse.OPTIONAL`, the string `'?'`. The file does not defer annotations, so Pythons that evaluate annotations eagerly (3.13 and earlier) evaluate the annotation `-> OPTIONAL[CalendarEvent]` at line 34 while the class body runs. Indexing `'?'` with a class raises `TypeError`, the module fails to import, and no calendar entity exists. `Calendar.GetEvents` and `Calendar.NextEvent` model the intended `Optional[CalendarEvent]` version.
- Calendar.NextEvent: the source reads the clock twice, once for each end of the week. The model uses one `now` for both.
- A record missing `id`, `date_due`, `is_active`, `project_id` or `title` would raise `KeyError` in the source. This covers `project["id"]` in the refresh loop and `task["id"]` in the deadline notification. Records here always carry those fields, and a datatype cannot express a missing one. `description` may be absent and then reads as `""`.
- Logging is not modelled.
- src/custom_components/kanboardizer/config_flow.py is UI form plumbing and is not part of this model.
- src/custom_components/kanboardizer/__init__.py copies configuration into `hass.data` and is not part of this model.
- src/custom_components/kanboardizer/const.py holds constants only. `DEFAULT_SCAN_INTERVAL` (300 seconds) belongs to the left-out scheduling. `DOMAIN` and `CALENDAR_NAME` only name entities and build unique ids, and those are left out too.

## Findings

| source | as written | input that shows it | evidently intended | confidence | as-written member | corrected member |
|---|---|---|---|---|---|---|
| custom_components/kanboardizer/sensor.py:8 | Line 8 imports `time` from `_datetime`, so `time` is the `datetime.time` class, which has no `time()` function. The call `int(time.time())` at line 183 therefore raises `AttributeError`. Line 192 catches it after the state and attributes are set, so no `kanboardizer_task_due` event is ever fired. | A successful update with one task due at 100 and a clock of 200 fires nothing (`LegacySensor.OverdueTaskScenario`). | One event per kept task due before the current epoch time. | not executed | `LegacySensor.DeadlineSensor.UpdateAsWritten` | `LegacySensor.DeadlineSensor.Update` |
