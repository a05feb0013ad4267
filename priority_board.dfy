/**
 * The priority board (src/components/PriorityBoard.tsx): the user's tasks,
 * newest first, grouped into the lanes P1, P2 and P3 by their exact priority
 * string, each lane ordered by (rank ascending, creation time descending).
 *
 * `grouped` is the object literal `{ P1: [], P2: [], P3: [], null: [] }`: a
 * task whose priority is null (or the string "null") goes to the `null`
 * array, which is never rendered, and any other string names no array. A
 * string naming a property every object inherits (`"toString"`,
 * `"constructor"`, ...) finds a function where an array is expected; see
 * `PushAsWritten`.
 */
module PriorityBoard {
  import opened Base
  import opened Rows
  import opened Sorting
  import opened Queries

  /** The four arrays of `grouped`. */
  datatype Lane = P1 | P2 | P3 | NoPriority

  datatype Lanes = Lanes(p1: seq<TaskRow>, p2: seq<TaskRow>, p3: seq<TaskRow>, none: seq<TaskRow>) {
    function Get(lane: Lane): seq<TaskRow> {
      match lane
      case P1 => p1
      case P2 => p2
      case P3 => p3
      case NoPriority => none
    }

    function With(lane: Lane, tasks: seq<TaskRow>): Lanes {
      match lane
      case P1 => this.(p1 := tasks)
      case P2 => this.(p2 := tasks)
      case P3 => this.(p3 := tasks)
      case NoPriority => this.(none := tasks)
    }
  }

  const EmptyLanes: Lanes := Lanes([], [], [], [])

  /** The properties every JavaScript object inherits from `Object.prototype`. */
  const ObjectPrototypeKeys: set<string> := {
    "constructor", "hasOwnProperty", "isPrototypeOf", "propertyIsEnumerable",
    "toString", "toLocaleString", "valueOf", "__proto__",
    "__defineGetter__", "__defineSetter__", "__lookupGetter__", "__lookupSetter__"
  }

  /** What `grouped[p]` holds for `p = t.priority ?? null`. */
  datatype Slot = Array(lane: Lane) | Undefined | NotAnArray

  function SlotOf(priority: Option<string>): Slot {
    match priority
    case None => Array(NoPriority)
    case Some(p) =>
      if p == "P1" then Array(P1)
      else if p == "P2" then Array(P2)
      else if p == "P3" then Array(P3)
      else if p == "null" then Array(NoPriority)
      else if p in ObjectPrototypeKeys then NotAnArray
      else Undefined
  }

  /**
   * `grouped[p]?.push(t)` as written: None is the TypeError thrown when
   * `grouped[p]` is an inherited function or object, whose `push` is undefined.
   */
  function PushAsWritten(lanes: Lanes, t: TaskRow): Option<Lanes> {
    match SlotOf(t.priority)
    case Array(lane) => Some(lanes.With(lane, lanes.Get(lane) + [t]))
    case Undefined => Some(lanes)
    case NotAnArray => None
  }

  /** The lane a task is grouped into, if any: only the own properties of `grouped` are lanes. */
  function LaneOf(priority: Option<string>): Option<Lane> {
    match SlotOf(priority)
    case Array(lane) => Some(lane)
    case _ => None
  }

  /** One step of the grouping loop, with every priority that is not a lane skipped. */
  function Push(lanes: Lanes, t: TaskRow): Lanes {
    match LaneOf(t.priority)
    case Some(lane) => lanes.With(lane, lanes.Get(lane) + [t])
    case None => lanes
  }

  /** `priorityOrder[t.priority || "P3"] ?? 2` */
  function Rank(priority: Option<string>): (rank: int)
    ensures 0 <= rank <= 2
    ensures rank == (if priority == Some("P1") then 0 else if priority == Some("P2") then 1 else 2)
  {
    var key := if Truthy(priority) then priority.value else "P3";
    if key == "P1" then 0 else if key == "P2" then 1 else if key == "P3" then 2 else 2
  }

  /** The lane comparator: rank ascending, then creation time descending. */
  function Compare(a: TaskRow, b: TaskRow): int {
    var ao, bo := Rank(a.priority), Rank(b.priority);
    if ao != bo then ao - bo else b.createdAt - a.createdAt
  }

  /** The tasks whose priority names `lane`, in input order. */
  function InLane(tasks: seq<TaskRow>, lane: Lane): seq<TaskRow> {
    Filter(tasks, (t: TaskRow) => LaneOf(t.priority) == Some(lane))
  }

  /** The board's lanes for a task list: each lane's tasks, sorted. */
  function BoardLanes(tasks: seq<TaskRow>): Lanes {
    Lanes(Sort(InLane(tasks, P1), Compare), Sort(InLane(tasks, P2), Compare),
          Sort(InLane(tasks, P3), Compare), Sort(InLane(tasks, NoPriority), Compare))
  }

  /** The lanes rendered, in order; the `null` lane is not among them. */
  function Rendered(lanes: Lanes): seq<seq<TaskRow>> {
    [lanes.p1, lanes.p2, lanes.p3]
  }

  /** `useMemo(() => { ... }, [tasks])`: the pushing loop, then each lane sorted in place. */
  method GroupLanes(tasks: seq<TaskRow>) returns (lanes: Lanes)
    ensures lanes == BoardLanes(tasks)
  {
    var grouped := PushAll(tasks);
    var p1 := SortLane(grouped.Get(P1));
    var p2 := SortLane(grouped.Get(P2));
    var p3 := SortLane(grouped.Get(P3));
    var none := SortLane(grouped.Get(NoPriority));
    lanes := Lanes(p1, p2, p3, none);
  }

  /** `for (const t of tasks) grouped[p]?.push(t)`, with every priority that is not a lane skipped. */
  method PushAll(tasks: seq<TaskRow>) returns (lanes: Lanes)
    ensures forall lane :: lanes.Get(lane) == InLane(tasks, lane)
  {
    lanes := EmptyLanes;
    ghost var seen: seq<TaskRow> := [];
    for i := 0 to |tasks|
      invariant seen == tasks[..i]
      invariant forall lane :: lanes.Get(lane) == InLane(seen, lane)
    {
      forall lane
        ensures Push(lanes, tasks[i]).Get(lane) == InLane(seen + [tasks[i]], lane)
      {
        PushAppends(lanes, tasks[i], lane);
        InLaneSnoc(seen, tasks[i], lane);
      }
      lanes := Push(lanes, tasks[i]);
      seen := seen + [tasks[i]];
    }
    assert seen == tasks;
  }

  /** `grouped[key]?.sort(comparator)` on one lane's array. */
  method SortLane(tasks: seq<TaskRow>) returns (sorted: seq<TaskRow>)
    ensures sorted == Sort(tasks, Compare)
  {
    var a := new TaskRow[|tasks|](i requires 0 <= i < |tasks| => tasks[i]);
    assert a[..] == tasks;
    SortInPlace(a, Compare);
    sorted := a[..];
  }

  class Board {
    var tasks: seq<TaskRow>
    var loading: bool

    constructor ()
      ensures tasks == [] && loading
    {
      tasks := [];
      loading := true;
    }

    /** `fetchTasks`: replace the list on success, keep it on error; loading ends either way. */
    method FetchTasks(table: seq<TaskRow>, userId: string, failed: bool)
      modifies this
      ensures !loading
      ensures tasks == if failed then old(tasks) else OwnTasks(table, userId)
    {
      if !failed {
        tasks := OwnTasks(table, userId);
      }
      loading := false;
    }
  }

  /** A lane is named by exactly one priority string (two for the `null` lane), compared case-sensitively. */
  lemma LaneOfExact(priority: Option<string>)
    ensures LaneOf(priority) == Some(P1) <==> priority == Some("P1")
    ensures LaneOf(priority) == Some(P2) <==> priority == Some("P2")
    ensures LaneOf(priority) == Some(P3) <==> priority == Some("P3")
    ensures LaneOf(priority) == Some(NoPriority) <==> priority.None? || priority == Some("null")
  {
  }

  /** The grouping step appends the task to its own lane and leaves the others alone. */
  lemma PushAppends(lanes: Lanes, t: TaskRow, lane: Lane)
    ensures Push(lanes, t).Get(lane) == lanes.Get(lane) + (if LaneOf(t.priority) == Some(lane) then [t] else [])
  {
  }

  /** As written, an inherited key throws where the corrected step skips the task. */
  lemma InheritedKeyThrows(lanes: Lanes, t: TaskRow)
    requires t.priority.Some? && t.priority.value in ObjectPrototypeKeys
    ensures PushAsWritten(lanes, t) == None
    ensures Push(lanes, t) == lanes
  {
  }

  /** For every other priority the corrected step is the step as written. */
  lemma PushAgrees(lanes: Lanes, t: TaskRow)
    requires t.priority.None? || t.priority.value !in ObjectPrototypeKeys
    ensures PushAsWritten(lanes, t) == Some(Push(lanes, t))
  {
  }

  /** The comparator is consistent, so each lane is in order and sorting it again changes nothing. */
  lemma CompareConsistent()
    ensures TotalPreorder(Compare)
  {
    forall a: TaskRow, b: TaskRow, c: TaskRow | Compare(a, b) <= 0 && Compare(b, c) <= 0
      ensures Compare(a, c) <= 0
    {
    }
  }

  /**
   * A lane holds exactly the tasks whose priority names it, each as often as
   * in the input, whatever their status.
   */
  lemma LaneContents(tasks: seq<TaskRow>, lane: Lane, t: TaskRow)
    ensures multiset(BoardLanes(tasks).Get(lane)) == multiset(InLane(tasks, lane))
    ensures t in BoardLanes(tasks).Get(lane) <==> t in tasks && LaneOf(t.priority) == Some(lane)
  {
    SortPermutes(InLane(tasks, lane), Compare);
    FilterMembership(tasks, (t: TaskRow) => LaneOf(t.priority) == Some(lane), t);
    assert t in BoardLanes(tasks).Get(lane) <==> t in multiset(BoardLanes(tasks).Get(lane));
  }

  /** No task is in two lanes. */
  lemma AtMostOneLane(tasks: seq<TaskRow>, t: TaskRow, l1: Lane, l2: Lane)
    requires t in BoardLanes(tasks).Get(l1) && t in BoardLanes(tasks).Get(l2)
    ensures l1 == l2
  {
    LaneContents(tasks, l1, t);
    LaneContents(tasks, l2, t);
  }

  /** Tasks with no priority, or a priority other than P1/P2/P3, are in no rendered lane. */
  lemma UnrankedHidden(tasks: seq<TaskRow>, t: TaskRow)
    requires t.priority !in {Some("P1"), Some("P2"), Some("P3")}
    ensures forall k :: 0 <= k < 3 ==> t !in Rendered(BoardLanes(tasks))[k]
  {
    LaneOfExact(t.priority);
    LaneContents(tasks, P1, t);
    LaneContents(tasks, P2, t);
    LaneContents(tasks, P3, t);
  }

  /** Two tasks of one lane have the same rank, so the comparator compares creation times. */
  lemma SameLaneCompare(a: TaskRow, b: TaskRow, lane: Lane)
    requires LaneOf(a.priority) == Some(lane) && LaneOf(b.priority) == Some(lane)
    ensures Compare(a, b) == b.createdAt - a.createdAt
  {
  }

  /** Within a lane, tasks are newest first, and sorting the lane again gives the same order. */
  lemma LaneOrder(tasks: seq<TaskRow>, lane: Lane)
    ensures forall i, j :: 0 <= i < j < |BoardLanes(tasks).Get(lane)| ==>
      BoardLanes(tasks).Get(lane)[i].createdAt >= BoardLanes(tasks).Get(lane)[j].createdAt
    ensures Sort(BoardLanes(tasks).Get(lane), Compare) == BoardLanes(tasks).Get(lane)
  {
    var members := InLane(tasks, lane);
    var sorted := BoardLanes(tasks).Get(lane);
    assert sorted == Sort(members, Compare);
    CompareConsistent();
    SortSorted(members, Compare);
    SortIdempotent(members, Compare);
    forall i, j | 0 <= i < j < |sorted|
      ensures sorted[i].createdAt >= sorted[j].createdAt
    {
      LaneContents(tasks, lane, sorted[i]);
      LaneContents(tasks, lane, sorted[j]);
      SameLaneCompare(sorted[i], sorted[j], lane);
    }
  }

  /** Adding a task to the input adds it to the end of its lane. */
  lemma InLaneSnoc(tasks: seq<TaskRow>, t: TaskRow, lane: Lane)
    ensures InLane(tasks + [t], lane) == InLane(tasks, lane) + (if LaneOf(t.priority) == Some(lane) then [t] else [])
  {
    assert (tasks + [t])[..|tasks|] == tasks;
  }
}
