/**
 * The proxy camera of VirtualEntity.java: a client-side entity, kept far
 * below the player's view, that the player's camera is locked to while the
 * animation runs. The entity keeps the undisplaced camera pose in `location`,
 * a monotone `removed` flag and a handle to its current move task; every
 * packet it sends is an event on the host trace.
 */
module Camera {
  import opened Poses
  import opened HostApi

  const MinLong: int := -0x8000_0000_0000_0000
  const MaxLong: int := 0x7FFF_FFFF_FFFF_FFFF

  /** Two's-complement wrap-around of a Java long. */
  function WrapLong(v: int): (r: int)
    ensures MinLong <= r <= MaxLong
    ensures MinLong <= v <= MaxLong ==> r == v
  {
    (v - MinLong) % 0x1_0000_0000_0000_0000 + MinLong
  }

  /** The largest player id whose synthetic id does not wrap around. */
  const LastUnwrappedId: int := MaxLong - 999

  /**
   * The proxy's entity id, `-player.getId() - 1000` in long arithmetic. For
   * every player id up to LastUnwrappedId it is at most -1000, so it never
   * equals a real (non-negative) entity id.
   */
  function SyntheticId(playerId: int): (eid: int)
    ensures 0 <= playerId <= LastUnwrappedId ==> eid <= -1000 && eid != playerId
  {
    WrapLong(-playerId - 1000)
  }

  /**
   * Distinct players get distinct proxy ids: `-id - 1000` is a bijection on
   * longs, including the ids past LastUnwrappedId whose proxy id wraps.
   */
  lemma SyntheticIdInjective(a: int, b: int)
    requires MinLong <= a <= MaxLong && MinLong <= b <= MaxLong
    requires a != b
    ensures SyntheticId(a) != SyntheticId(b)
  {
    var m := 0x1_0000_0000_0000_0000;
    assert SyntheticId(a) == (if a <= LastUnwrappedId then -a - 1000 else -a - 1000 + m);
    assert SyntheticId(b) == (if b <= LastUnwrappedId then -b - 1000 else -b - 1000 + m);
  }

  /** Past LastUnwrappedId the subtraction wraps and the proxy id turns positive. */
  lemma SyntheticIdWrapsAtMaxLong()
    ensures SyntheticId(MaxLong) == MaxLong - 998
    ensures SyntheticId(MaxLong) > 0
  {
    assert -MaxLong - 1000 - MinLong == -999;
    assert -999 % 0x1_0000_0000_0000_0000 == 0x1_0000_0000_0000_0000 - 999;
  }

  /** `Math.max(1, duration)`: a move lasts at least one tick. */
  function AtLeastOneTick(duration: int): (ticks: int)
    ensures ticks >= 1
    ensures duration >= 1 ==> ticks == duration
    ensures duration < 1 ==> ticks == 1
  {
    if duration < 1 then 1 else duration
  }

  /**
   * The repeating task a move schedules: the start and end camera poses it
   * captured, its tick count and the countdown it decrements once per tick.
   * Cancelling is the TaskHandler's cancel(); the scheduler never runs a
   * cancelled task again.
   */
  class MoveTask {
    const start: Pose
    const end: Pose
    const duration: int
    var counter: int
    var cancelled: bool

    ghost predicate Valid()
      reads this
    {
      1 <= duration && 0 <= counter <= duration && (!cancelled ==> 1 <= counter)
    }

    constructor (start: Pose, end: Pose, duration: int)
      requires duration >= 1
      ensures Valid()
      ensures this.start == start && this.end == end && this.duration == duration
      ensures counter == duration && !cancelled
    {
      this.start, this.end, this.duration := start, end, duration;
      counter := duration;
      cancelled := false;
    }

    method Cancel()
      modifies this`cancelled
      ensures cancelled
    {
      cancelled := true;
    }
  }

  class VirtualEntity {
    const host: Host
    const playerId: int
    const entityId: int
    var location: Pose
    var removed: bool
    var currentMoveTask: MoveTask?
    /** Every move task this entity has created. */
    ghost var tasks: set<MoveTask>

    /**
     * At most one move task is active, and it is the current one; once the
     * entity is removed, none is.
     */
    ghost predicate Valid()
      reads this`removed, this`currentMoveTask, this`tasks, tasks
    {
      && (currentMoveTask != null ==> currentMoveTask in tasks)
      && (forall t :: t in tasks ==> t.Valid())
      && (forall t :: t in tasks && !t.cancelled ==> t == currentMoveTask)
      && (removed ==> forall t :: t in tasks ==> t.cancelled)
    }

    /** The constructor: the proxy takes its id from the player and its pose from the player's location. */
    constructor (host: Host, playerId: int, playerLocation: Pose)
      ensures Valid()
      ensures this.host == host && this.playerId == playerId && entityId == SyntheticId(playerId)
      ensures location == playerLocation && !removed && currentMoveTask == null && tasks == {}
    {
      this.host := host;
      this.playerId := playerId;
      entityId := SyntheticId(playerId);
      location := playerLocation;
      removed := false;
      currentMoveTask := null;
      tasks := {};
    }

    /**
     * Sends the proxy entity 10000 below the camera pose, its invisibility
     * metadata and the invisibility effect. There is no removed check here.
     */
    method Spawn()
      modifies host`trace
      ensures host.trace == old(host.trace)
        + [SpawnProxy(entityId, Below(location)), HideProxy(entityId), ProxyEffect(entityId, true)]
    {
      host.Send(SpawnProxy(entityId, Below(location)));
      host.Send(HideProxy(entityId));
      host.Send(ProxyEffect(entityId, true));
    }

    /** Places the player's own view at loc; nothing once removed. */
    method UpdateCamera(loc: Pose)
      modifies host`trace
      ensures host.trace == old(host.trace) + (if removed then [] else [ViewAt(playerId, loc)])
    {
      if removed {
        return;
      }
      host.Send(ViewAt(playerId, loc));
    }

    /** `updateCamera()`: refreshes the player's view at the stored camera pose. */
    method UpdateCameraAtLocation()
      modifies host`trace
      ensures host.trace == old(host.trace) + (if removed then [] else [ViewAt(playerId, location)])
    {
      UpdateCamera(location);
    }

    /**
     * Stores the camera pose, moves the proxy to 10000 below it and puts the
     * player's view there; nothing once removed.
     */
    method Teleport(loc: Pose)
      modifies this`location, host`trace
      ensures removed ==> location == old(location) && host.trace == old(host.trace)
      ensures !removed ==> (location == loc
        && host.trace == old(host.trace) + [MoveProxy(entityId, Below(loc)), ViewAt(playerId, loc)])
    {
      if removed {
        return;
      }
      location := loc;
      host.Send(MoveProxy(entityId, Below(loc)));
      UpdateCamera(loc);
    }

    /**
     * Starts moving the camera from its current pose to `to` over
     * max(1, duration) ticks, after cancelling the previous move task; the
     * new task becomes the current one. Returns null once removed.
     */
    method Move(to: Pose, duration: int) returns (task: MoveTask?)
      requires Valid()
      modifies this`currentMoveTask, this`tasks, tasks
      ensures Valid()
      ensures removed ==> (task == null && currentMoveTask == old(currentMoveTask)
        && tasks == old(tasks) && unchanged(tasks))
      ensures !removed ==>
        && task != null && fresh(task) && task == currentMoveTask && tasks == old(tasks) + {task}
        && task.start == location && task.end == to && task.duration == AtLeastOneTick(duration)
        && task.counter == task.duration && !task.cancelled
        && (forall t :: t in old(tasks) ==> t.cancelled && t.counter == old(t.counter))
    {
      if removed {
        return null;
      }
      if currentMoveTask != null && !currentMoveTask.cancelled {
        currentMoveTask.Cancel();
      }
      task := new MoveTask(location, to, AtLeastOneTick(duration));
      tasks := tasks + {task};
      currentMoveTask := task;
    }

    /**
     * One run of a move task's repeating body. It cancels itself, touching
     * nothing else, when the entity is removed or the player is offline.
     * Since Remove cancels every task, a task that is still live never finds
     * the entity removed: only the offline half of that guard can fire.
     * Otherwise it moves the proxy and the view to the interpolated pose for
     * the countdown it finds, stores that pose and decrements the countdown;
     * the tick that brings the countdown to zero snaps to the end pose
     * exactly and cancels the task.
     */
    method Tick(task: MoveTask)
      requires Valid() && task in tasks && !task.cancelled
      modifies this`location, task, host`trace
      ensures Valid()
      ensures removed || !host.online ==>
        task.cancelled && task.counter == old(task.counter)
        && location == old(location) && host.trace == old(host.trace)
      ensures !removed && host.online ==>
        var cam := TickPose(task.start, task.end, task.duration, old(task.counter));
        && task.counter == old(task.counter) - 1
        && (task.cancelled <==> task.counter == 0)
        && location == (if task.counter == 0 then task.end else cam)
        && host.trace == old(host.trace) + [MoveProxy(entityId, Below(cam)), ViewAt(playerId, cam)]
           + (if task.counter == 0 then [MoveProxy(entityId, Below(task.end)), ViewAt(playerId, task.end)] else [])
    {
      if removed || !host.online {
        task.Cancel();
        return;
      }
      var rawProgress := RawProgress(task.counter, task.duration);
      var easedProgress := EaseInOutCubic(rawProgress);
      var cameraPos := Interpolate(task.start, task.end, easedProgress);
      host.Send(MoveProxy(entityId, Below(cameraPos)));
      location := cameraPos;
      UpdateCamera(cameraPos);
      task.counter := task.counter - 1;
      if task.counter <= 0 {
        Teleport(task.end);
        task.Cancel();
      }
    }

    /** Refreshes the player's view and hides the player from everyone else; nothing once removed. */
    method AttachCamera()
      modifies host`trace
      ensures host.trace == old(host.trace)
        + (if removed then [] else [ViewAt(playerId, location), Visibility(playerId, false)])
    {
      if removed {
        return;
      }
      UpdateCameraAtLocation();
      host.Send(Visibility(playerId, false));
    }

    /** Makes the player visible to everyone else again; sent even after removal. */
    method DetachCamera()
      modifies host`trace
      ensures host.trace == old(host.trace) + [Visibility(playerId, true)]
    {
      host.Send(Visibility(playerId, true));
    }

    /**
     * Removes the proxy once: marks it removed, cancels a still-active move
     * task, removes the invisibility effect and the entity. A second call
     * returns at once and sends nothing.
     */
    method Remove()
      requires Valid()
      modifies this`removed, this`currentMoveTask, tasks, host`trace
      ensures Valid() && removed
      ensures forall t :: t in tasks ==> t.cancelled
      ensures old(removed) ==> (host.trace == old(host.trace)
        && currentMoveTask == old(currentMoveTask) && unchanged(tasks))
      ensures !old(removed) ==>
        && host.trace == old(host.trace) + [ProxyEffect(entityId, false), RemoveProxy(entityId)]
        && currentMoveTask == (if old(currentMoveTask) != null && !old(currentMoveTask.cancelled)
                               then null else old(currentMoveTask))
        && (forall t :: t in tasks ==> t.counter == old(t.counter))
    {
      if removed {
        return;
      }
      removed := true;
      if currentMoveTask != null && !currentMoveTask.cancelled {
        currentMoveTask.Cancel();
        currentMoveTask := null;
      }
      host.Send(ProxyEffect(entityId, false));
      host.Send(RemoveProxy(entityId));
    }
  }

  /** A packet of a move from a to b stays in the box they span: the view in it, the proxy 10000 below it. */
  predicate ShownWithin(a: Pose, b: Pose, ev: Event)
  {
    match ev
    case ViewAt(_, at) => Within(a, b, at)
    case MoveProxy(_, at) => Within(Below(a), Below(b), at)
    case _ => true
  }

  /**
   * The scheduler running a fresh move task once per tick until it stops,
   * with the proxy live and the player online throughout: it stops after
   * exactly `duration` runs, the camera ends exactly at the target, and
   * every view and proxy position sent on the way lies between start and
   * target.
   */
  method RunMove(e: VirtualEntity, task: MoveTask) returns (runs: nat)
    requires e.Valid() && task in e.tasks && !task.cancelled && task.counter == task.duration
    requires !e.removed && e.host.online
    modifies e`location, task, e.host`trace
    ensures e.Valid() && task.cancelled && task.counter == 0
    ensures runs == task.duration
    ensures e.location == task.end
    ensures |e.host.trace| >= |old(e.host.trace)| && e.host.trace[..|old(e.host.trace)|] == old(e.host.trace)
    ensures forall i :: |old(e.host.trace)| <= i < |e.host.trace| ==> ShownWithin(task.start, task.end, e.host.trace[i])
  {
    runs := 0;
    ghost var before := e.host.trace;
    while !task.cancelled
      invariant e.Valid() && task in e.tasks
      invariant runs + task.counter == task.duration
      invariant task.cancelled ==> task.counter == 0 && e.location == task.end
      invariant |e.host.trace| >= |before| && e.host.trace[..|before|] == before
      invariant forall i :: |before| <= i < |e.host.trace| ==> ShownWithin(task.start, task.end, e.host.trace[i])
      decreases task.counter
    {
      var cam := TickPose(task.start, task.end, task.duration, task.counter);
      TickPoseWithin(task.start, task.end, task.duration, task.counter);
      BelowWithin(task.start, task.end, cam);
      BelowWithin(task.start, task.end, task.end);
      ghost var prev := e.host.trace;
      e.Tick(task);
      assert forall i :: |prev| <= i < |e.host.trace| ==> ShownWithin(task.start, task.end, e.host.trace[i]);
      runs := runs + 1;
    }
  }
}
