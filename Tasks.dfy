/**
 * The swarm task allocator (src/bot/swarm/task_allocator.py).
 *
 * `allocate_tasks` builds a fresh task list by appending in a loop and then
 * overwrites the allocator's `tasks` field with it. Units and threats are
 * dictionaries in the source; only the keys it reads are modelled.
 */
module Tasks {
  import opened Wrappers
  import opened SeqUtil

  datatype TaskType = Attack | Defend | Scout | Harass

  /** A target position (a tuple of two floats in the source). */
  datatype Point = Point(x: real, y: real)

  /** A unit dictionary: only its optional "id" is read. */
  datatype UnitInfo = UnitInfo(id: Option<int>)

  /** A threat dictionary: only its optional "position" is read. */
  datatype Threat = Threat(position: Option<Point>)

  datatype Task = Task(taskType: TaskType, targetPosition: Point, unitIds: seq<int>, priority: int)

  /** `unit.get("id", i)`. */
  function UnitId(u: UnitInfo, i: int): int {
    u.id.GetOr(i)
  }

  /** The i-th scouting point, (10 + 5i, 10 + 5i). */
  function ScoutPoint(i: nat): (p: Point)
    ensures p.x == p.y == 10.0 + 5.0 * (i as real)
  {
    Point(10.0 + (i as real) * 5.0, 10.0 + (i as real) * 5.0)
  }

  /** The task the scouting loop appends for the i-th unit. */
  function ScoutTask(u: UnitInfo, i: nat): Task {
    Task(Scout, ScoutPoint(i), [UnitId(u, i)], 2)
  }

  /** The task the defence loop appends for the i-th threat and unit. */
  function DefendTask(t: Threat, u: UnitInfo, i: nat): Task {
    Task(Defend, t.position.GetOr(Point(0.0, 0.0)), [UnitId(u, i)], 1)
  }

  class TaskAllocator {
    var tasks: seq<Task>

    constructor ()
      ensures tasks == []
    {
      tasks := [];
    }

    /**
     * With no threats, the first (at most) three units scout; otherwise the
     * i-th unit defends against the i-th threat for as many pairs as both
     * lists allow. The result replaces the previous task list.
     */
    method AllocateTasks(units: seq<UnitInfo>, threats: seq<Threat>) returns (result: seq<Task>)
      modifies this
      ensures tasks == result
      ensures threats == [] ==> |result| == Min(3, |units|)
      ensures threats == [] ==> forall i :: 0 <= i < |result| ==> result[i] == ScoutTask(units[i], i)
      ensures threats != [] ==> |result| == Min(|threats|, |units|)
      ensures threats != [] ==> forall i :: 0 <= i < |result| ==> result[i] == DefendTask(threats[i], units[i], i)
      ensures forall i :: 0 <= i < |result| ==> |result[i].unitIds| == 1
    {
      var built: seq<Task> := [];
      if threats == [] {
        var scouts := Take(units, 3);
        var i := 0;
        while i < |scouts|
          invariant 0 <= i <= |scouts|
          invariant |built| == i
          invariant forall k :: 0 <= k < i ==> built[k] == ScoutTask(units[k], k)
        {
          built := built + [ScoutTask(scouts[i], i)];
          i := i + 1;
        }
      } else {
        var defended := Take(threats, |units|);
        var i := 0;
        while i < |defended|
          invariant 0 <= i <= |defended|
          invariant |built| == i
          invariant forall k :: 0 <= k < i ==> built[k] == DefendTask(threats[k], units[k], k)
        {
          // the slice keeps i below |units|, so the source's `units[0]` fallback never runs
          assert i < |units|;
          var unit := units[i];
          built := built + [DefendTask(defended[i], unit, i)];
          i := i + 1;
        }
      }
      tasks := built;
      result := built;
    }
  }
}
