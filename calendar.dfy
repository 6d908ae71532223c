/**
 The calendar entity: every task with a deadline inside a queried window is shown
 as a one-hour event starting at the deadline, ordered by start
 (src/custom_components/kanboardizer/calendar.py).
 */
module Calendar {
  import opened Kanboard
  import opened Seqs

  const SecondsPerHour: int := 3600
  const SecondsPerWeek: int := 7 * SecondsPerDay

  /** A `CalendarEvent`; `location` is always None here. */
  datatype Event = Event(summary: string, start: int, end: int, description: string, location: Option<string>)

  /** The event a task is shown as: summary "Task Due: <title>", one hour from the
      deadline, and the task's description or "" when it has none. */
  function ToEvent(t: Task): Event {
    Event("Task Due: " + t.title, Due(t), Due(t) + SecondsPerHour,
      if t.description.Some? then t.description.value else "", None)
  }

  /** The task has a deadline and it lies in `[startDate, endDate]`. */
  predicate InWindow(t: Task, startDate: int, endDate: int) {
    HasDeadline(t) && startDate <= Due(t) <= endDate
  }

  function WindowAt(startDate: int, endDate: int): Task -> bool {
    t => InWindow(t, startDate, endDate)
  }

  /** The events of the tasks in the window, in task order (before sorting). */
  function WindowEvents(tasks: seq<Task>, startDate: int, endDate: int): seq<Event> {
    Map(Filter(tasks, WindowAt(startDate, endDate)), ToEvent)
  }

  /** Every window event lies in the window, lasts one hour and comes from a task in
      the window; every task in the window yields its event; there is one event per
      such task, so no more events than tasks. */
  lemma WindowEventsSpec(tasks: seq<Task>, startDate: int, endDate: int)
    ensures |WindowEvents(tasks, startDate, endDate)| == |Filter(tasks, WindowAt(startDate, endDate))| <= |tasks|
    ensures forall e :: e in WindowEvents(tasks, startDate, endDate) ==>
      startDate <= e.start <= endDate && e.end == e.start + SecondsPerHour
    ensures forall e :: e in WindowEvents(tasks, startDate, endDate) ==>
      exists t :: t in tasks && InWindow(t, startDate, endDate) && e == ToEvent(t)
    ensures forall t :: t in tasks && InWindow(t, startDate, endDate) ==>
      ToEvent(t) in WindowEvents(tasks, startDate, endDate)
  {
    FilterMembers(tasks, WindowAt(startDate, endDate));
    MapMembers(Filter(tasks, WindowAt(startDate, endDate)), ToEvent);
  }

  // ---------------------------------------------------------------------------
  // `sorted(events, key=lambda x: x.start)`

  predicate SortedByStart(s: seq<Event>) {
    forall i, j :: 0 <= i < j < |s| ==> s[i].start <= s[j].start
  }

  /** Puts `x` in front of the first element that starts no earlier than it. */
  function Insert(x: Event, s: seq<Event>): seq<Event>
    decreases |s|
  {
    if s == [] then [x]
    else if x.start <= s[0].start then [x] + s
    else [s[0]] + Insert(x, s[1..])
  }

  /** A stable sort by start time (insertion sort). */
  function SortByStart(s: seq<Event>): seq<Event>
    decreases |s|
  {
    if s == [] then [] else Insert(s[0], SortByStart(s[1..]))
  }

  lemma SortedTail(s: seq<Event>)
    requires s != [] && SortedByStart(s)
    ensures SortedByStart(s[1..])
  {
    forall i, j | 0 <= i < j < |s| - 1 ensures s[1..][i].start <= s[1..][j].start {
      assert s[1..][i] == s[i + 1] && s[1..][j] == s[j + 1];
    }
  }

  lemma {:induction false} InsertPerm(x: Event, s: seq<Event>)
    ensures multiset(Insert(x, s)) == multiset(s) + multiset{x}
    decreases |s|
  {
    if s != [] && x.start > s[0].start {
      assert s == [s[0]] + s[1..];
      InsertPerm(x, s[1..]);
    }
  }

  lemma SortedCons(a: Event, s: seq<Event>)
    requires SortedByStart(s)
    requires forall e :: e in s ==> a.start <= e.start
    ensures SortedByStart([a] + s)
  {
    forall i, j | 0 <= i < j < |s| + 1 ensures ([a] + s)[i].start <= ([a] + s)[j].start {
      assert ([a] + s)[j] == s[j - 1];
      if i > 0 {
        assert ([a] + s)[i] == s[i - 1];
      }
    }
  }

  lemma {:induction false} InsertSorted(x: Event, s: seq<Event>)
    requires SortedByStart(s)
    ensures SortedByStart(Insert(x, s))
    decreases |s|
  {
    if s == [] {
      assert Insert(x, s) == [x];
    } else if x.start <= s[0].start {
      forall e | e in s ensures x.start <= e.start {
        var i :| 0 <= i < |s| && s[i] == e;
        assert s[0].start <= s[i].start;
      }
      SortedCons(x, s);
    } else {
      var first, rest := s[0], s[1..];
      SortedTail(s);
      InsertSorted(x, rest);
      InsertPerm(x, rest);
      var r := Insert(x, rest);
      forall e | e in r ensures first.start <= e.start {
        assert e in multiset(r);
        if e != x {
          assert e in rest;
          var i :| 0 <= i < |rest| && rest[i] == e;
          assert s[i + 1] == e;
        }
      }
      SortedCons(first, r);
    }
  }

  /** The sort returns the same events, ordered by start. */
  lemma {:induction false} SortSpec(s: seq<Event>)
    ensures SortedByStart(SortByStart(s))
    ensures multiset(SortByStart(s)) == multiset(s)
    ensures |SortByStart(s)| == |s|
    decreases |s|
  {
    if s != [] {
      assert s == [s[0]] + s[1..];
      SortSpec(s[1..]);
      InsertPerm(s[0], SortByStart(s[1..]));
      InsertSorted(s[0], SortByStart(s[1..]));
    }
  }

  function StartsAt(k: int): Event -> bool {
    (e: Event) => e.start == k
  }

  lemma {:induction false} InsertStable(x: Event, s: seq<Event>, k: int)
    requires SortedByStart(s)
    ensures Filter(Insert(x, s), StartsAt(k)) == (if x.start == k then [x] else []) + Filter(s, StartsAt(k))
    decreases |s|
  {
    if s == [] {
      FilterCons(x, s, StartsAt(k));
    } else if x.start <= s[0].start {
      FilterCons(x, s, StartsAt(k));
    } else {
      var first, rest := s[0], s[1..];
      assert s == [first] + rest;
      SortedTail(s);
      InsertStable(x, rest, k);
      FilterCons(first, Insert(x, rest), StartsAt(k));
      FilterCons(first, rest, StartsAt(k));
    }
  }

  /** The sort is stable: the events that share any one start time come out in the
      order they went in. */
  lemma {:induction false} SortStable(s: seq<Event>, k: int)
    ensures Filter(SortByStart(s), StartsAt(k)) == Filter(s, StartsAt(k))
    decreases |s|
  {
    if s != [] {
      assert s == [s[0]] + s[1..];
      SortStable(s[1..], k);
      SortSpec(s[1..]);
      InsertStable(s[0], SortByStart(s[1..]), k);
      FilterCons(s[0], s[1..], StartsAt(k));
    }
  }

  /** `s[i]` starts no later than any event of `s`, and every event before it starts
      strictly later: it is the first of the earliest events. */
  predicate FirstEarliest(s: seq<Event>, i: int) {
    && 0 <= i < |s|
    && (forall j :: 0 <= j < |s| ==> s[i].start <= s[j].start)
    && (forall j :: 0 <= j < i ==> s[j].start > s[i].start)
  }

  /** The first event of the sorted list is the earliest-starting one, and among the
      earliest the one that came first. */
  lemma {:induction false} SortHead(s: seq<Event>)
    requires s != []
    ensures exists i :: FirstEarliest(s, i) && SortByStart(s)[0] == s[i]
    decreases |s|
  {
    if |s| == 1 {
      assert SortByStart(s) == [s[0]];
      assert FirstEarliest(s, 0);
    } else {
      var rest := s[1..];
      SortHead(rest);
      var r := SortByStart(rest);
      var k :| FirstEarliest(rest, k) && r[0] == rest[k];
      assert forall j :: 1 <= j < |s| ==> s[j] == rest[j - 1];
      if s[0].start <= r[0].start {
        assert SortByStart(s)[0] == s[0];
        assert FirstEarliest(s, 0);
      } else {
        assert SortByStart(s)[0] == s[1 + k];
        assert FirstEarliest(s, 1 + k);
      }
    }
  }

  // ---------------------------------------------------------------------------
  // The entity

  /** `KanboardCalendar._get_events`: collects the event of each task whose deadline
      lies in `[startDate, endDate]`, then sorts them by start. */
  method GetEvents(data: Snapshot, startDate: int, endDate: int) returns (events: seq<Event>)
    ensures events == SortByStart(WindowEvents(data.Tasks(), startDate, endDate))
    ensures SortedByStart(events)
    ensures multiset(events) == multiset(WindowEvents(data.Tasks(), startDate, endDate))
    ensures |events| == |Filter(data.Tasks(), WindowAt(startDate, endDate))| <= |data.Tasks()|
    ensures forall e :: e in events ==> startDate <= e.start <= endDate && e.end == e.start + SecondsPerHour
    ensures forall e :: e in events ==>
      exists t :: t in data.Tasks() && InWindow(t, startDate, endDate) && e == ToEvent(t)
    ensures forall t :: t in data.Tasks() && InWindow(t, startDate, endDate) ==> ToEvent(t) in events
    ensures data.Tasks() == [] ==> events == []
  {
    var tasks := data.Tasks();
    var found: seq<Event> := [];
    for i := 0 to |tasks|
      invariant found == WindowEvents(tasks[..i], startDate, endDate)
    {
      FilterPrefix(tasks, i, WindowAt(startDate, endDate));
      assert WindowAt(startDate, endDate)(tasks[i]) == InWindow(tasks[i], startDate, endDate);
      if HasDeadline(tasks[i]) {
        var dueDate := Due(tasks[i]);
        if startDate <= dueDate <= endDate {
          MapConcat(Filter(tasks[..i], WindowAt(startDate, endDate)), [tasks[i]], ToEvent);
          assert Map([tasks[i]], ToEvent) == [ToEvent(tasks[i])];
          found := found + [ToEvent(tasks[i])];
        }
      }
    }
    assert tasks[..|tasks|] == tasks;
    WindowEventsSpec(tasks, startDate, endDate);
    SortSpec(found);
    events := SortByStart(found);
    forall e | e in events
      ensures startDate <= e.start <= endDate && e.end == e.start + SecondsPerHour
      ensures exists t :: t in tasks && InWindow(t, startDate, endDate) && e == ToEvent(t)
    {
      assert e in multiset(found);
    }
    forall t | t in tasks && InWindow(t, startDate, endDate) ensures ToEvent(t) in events {
      assert ToEvent(t) in multiset(events);
    }
  }

  /** `KanboardCalendar.event`: the first event of the coming week, or None when no
      task falls due in it. */
  method NextEvent(data: Snapshot, now: int) returns (r: Option<Event>)
    ensures r.None? <==> forall t :: t in data.Tasks() ==> !InWindow(t, now, now + SecondsPerWeek)
    ensures r.Some? ==>
      var w := WindowEvents(data.Tasks(), now, now + SecondsPerWeek);
      exists i :: FirstEarliest(w, i) && r.value == w[i]
  {
    var events := GetEvents(data, now, now + SecondsPerWeek);
    if events == [] {
      r := None;
    } else {
      SortHead(WindowEvents(data.Tasks(), now, now + SecondsPerWeek));
      r := Some(events[0]);
    }
  }
}
