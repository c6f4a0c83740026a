/**
 * TransmissionProcess.java: the stage sequencer of one animated teleport.
 * The Nukkit scheduler is a queue of delayed callbacks stamped with the tick
 * they are due at; each stage is a method that runs when its callback fires
 * and enqueues its successors at offsets relative to the current tick.
 * Exceptions are injected with a Fault: the top-level call with the given
 * index throws, and the stage's catch block runs cleanup.
 */
module Transmission {
  import opened Poses
  import opened HostApi
  import opened Camera
  import opened PluginMain

  /** The gta.* durations, in ticks, as read from the configuration. */
  datatype Durations = Durations(up: int, fadeIn: int, stay: int, fadeOut: int, down: int, downStay: int)

  /** The configuration defaults: up 40, fade-in 20, stay 20, fade-out 40, down 40, down-stay 20. */
  const DefaultDurations: Durations := Durations(40, 20, 20, 40, 40, 20)
  const DefaultUpOffset: real := 100.0
  /** The pitch of a camera looking straight down. */
  const LookDown: real := 90.0
  /** How long after cleanup the second removal and the registry release run. */
  const ReleaseDelay: int := 5

  /** A pose raised by upOffset and looking straight down: the camera's view above a point. */
  function Raised(p: Pose, upOffset: real): (r: Pose)
    ensures r.x == p.x && r.z == p.z && r.yaw == p.yaw
    ensures r.y == p.y + upOffset && r.pitch == LookDown
  {
    p.(y := p.y + upOffset, pitch := LookDown)
  }

  /** Ticks, counted from the start of the sequence, at which the later stages run. */
  function Stage2Tick(d: Durations): int
  {
    d.up + d.fadeIn
  }

  function Stage3Tick(d: Durations): int
  {
    Stage2Tick(d) + d.stay + d.fadeOut
  }

  function FinalTick(d: Durations): int
  {
    Stage3Tick(d) + d.down + d.downStay
  }

  /** What a scheduled callback does when it fires. */
  datatype Callback =
    | Refresh(target: Pose)  // entity.updateCamera(target) during a hold
    | Stage2                 // snap to the raised start, fly across
    | Stage3                 // real teleport, snap above the destination, fly down
    | Final                  // cleanup(null)
    | Release                // second removal and release of the processing entry

  datatype Delayed = Delayed(due: int, cb: Callback)

  function NonNeg(n: int): nat
  {
    if n < 0 then 0 else n
  }

  /** The camera refreshes one hold loop schedules: one per iteration of `for (i = 0; i < n; i++)`. */
  function Holds(base: int, n: int, target: Pose): (holds: seq<Delayed>)
    decreases n
  {
    if n <= 0 then [] else Holds(base, n - 1, target) + [Delayed(base + n - 1, Refresh(target))]
  }

  /** A hold loop schedules max(0, n) refreshes, on the contiguous ticks base, base + 1, ... */
  lemma {:induction false} HoldsAt(base: int, n: int, target: Pose)
    ensures |Holds(base, n, target)| == NonNeg(n)
    ensures forall i :: 0 <= i < NonNeg(n) ==> Holds(base, n, target)[i] == Delayed(base + i, Refresh(target))
  {
    if n > 0 {
      HoldsAt(base, n - 1, target);
    }
  }

  /** What the first stage schedules when it runs at tick now. */
  function Stage1Schedule(now: int, d: Durations, upLocation: Pose): seq<Delayed>
  {
    Holds(now + d.up, d.fadeIn, upLocation) + [Delayed(now + d.up + d.fadeIn, Stage2)]
  }

  function Stage2Schedule(now: int, d: Durations, downLocation: Pose): seq<Delayed>
  {
    Holds(now + d.stay, d.fadeOut, downLocation) + [Delayed(now + d.stay + d.fadeOut, Stage3)]
  }

  function Stage3Schedule(now: int, d: Durations, destination: Pose): seq<Delayed>
  {
    Holds(now + d.down, d.downStay, destination) + [Delayed(now + d.down + d.downStay, Final)]
  }

  /** Every callback a sequence started at t0 schedules when no stage fails, in scheduling order. */
  function FullSchedule(t0: int, d: Durations, upLocation: Pose, downLocation: Pose, destination: Pose): seq<Delayed>
  {
    Stage1Schedule(t0, d, upLocation)
    + Stage2Schedule(t0 + Stage2Tick(d), d, downLocation)
    + Stage3Schedule(t0 + Stage3Tick(d), d, destination)
    + [Delayed(t0 + FinalTick(d) + ReleaseDelay, Release)]
  }

  /**
   * The layout of a fault-free run: each stage callback is due at the sum of
   * the durations before it; each hold schedules max(0, n) refreshes on the
   * contiguous ticks that start when its move's nominal duration is over and
   * end one tick before the next stage; the release comes 5 ticks after cleanup.
   */
  lemma FullScheduleLayout(t0: int, d: Durations, upLocation: Pose, downLocation: Pose, destination: Pose)
    ensures var s := FullSchedule(t0, d, upLocation, downLocation, destination);
      var n1, n2, n3 := NonNeg(d.fadeIn), NonNeg(d.fadeOut), NonNeg(d.downStay);
      && |s| == n1 + n2 + n3 + 4
      && (forall i :: 0 <= i < n1 ==> s[i] == Delayed(t0 + d.up + i, Refresh(upLocation)))
      && s[n1] == Delayed(t0 + Stage2Tick(d), Stage2)
      && (forall j :: n1 + 1 <= j < n1 + 1 + n2 ==>
            s[j] == Delayed(t0 + Stage2Tick(d) + d.stay + (j - n1 - 1), Refresh(downLocation)))
      && s[n1 + 1 + n2] == Delayed(t0 + Stage3Tick(d), Stage3)
      && (forall j :: n1 + n2 + 2 <= j < n1 + n2 + 2 + n3 ==>
            s[j] == Delayed(t0 + Stage3Tick(d) + d.down + (j - n1 - n2 - 2), Refresh(destination)))
      && s[n1 + n2 + n3 + 2] == Delayed(t0 + FinalTick(d), Final)
      && s[n1 + n2 + n3 + 3] == Delayed(t0 + FinalTick(d) + ReleaseDelay, Release)
      && (n1 > 0 ==> s[n1 - 1].due == s[n1].due - 1)
      && (n2 > 0 ==> s[n1 + n2].due == s[n1 + n2 + 1].due - 1)
      && (n3 > 0 ==> s[n1 + n2 + n3 + 1].due == s[n1 + n2 + n3 + 2].due - 1)
  {
    HoldsAt(t0 + d.up, d.fadeIn, upLocation);
    HoldsAt(t0 + Stage2Tick(d) + d.stay, d.fadeOut, downLocation);
    HoldsAt(t0 + Stage3Tick(d) + d.down, d.downStay, destination);
  }

  /** With the default durations the later stages run at ticks 60, 120 and 180, the release at 185. */
  lemma DefaultStageTicks()
    ensures Stage2Tick(DefaultDurations) == 60
    ensures Stage3Tick(DefaultDurations) == 120
    ensures FinalTick(DefaultDurations) == 180
    ensures FinalTick(DefaultDurations) + ReleaseDelay == 185
  {
  }

  /**
   * From (0, 64, 0) to (100, 70, 0) with the default offset of 100 the camera
   * flies through (0, 164, 0) and (100, 170, 0), looking straight down.
   */
  lemma DefaultRaisedPoses(yaw: real, pitch: real, destYaw: real, destPitch: real)
    ensures Raised(Pose(0.0, 64.0, 0.0, yaw, pitch), DefaultUpOffset) == Pose(0.0, 164.0, 0.0, yaw, 90.0)
    ensures Raised(Pose(100.0, 70.0, 0.0, destYaw, destPitch), DefaultUpOffset) == Pose(100.0, 170.0, 0.0, destYaw, 90.0)
  {
  }

  /** The host scheduler: the current tick and the delayed callbacks registered so far. */
  class Scheduler {
    var now: int
    var pending: seq<Delayed>

    constructor (now: int)
      ensures this.now == now && pending == []
    {
      this.now := now;
      pending := [];
    }

    /** scheduleDelayedTask: the callback becomes due delay ticks from now. */
    method ScheduleDelayed(delay: int, cb: Callback)
      modifies this`pending
      ensures pending == old(pending) + [Delayed(now + delay, cb)]
    {
      pending := pending + [Delayed(now + delay, cb)];
    }

    /**
     * A hold loop: for i from 0 while i < n, a refresh of the camera at
     * target is scheduled offset + i ticks from now.
     */
    method ScheduleHolds(offset: int, n: int, target: Pose)
      modifies this`pending
      ensures pending == old(pending) + Holds(now + offset, n, target)
    {
      var i := 0;
      while i < n
        invariant i == 0 || 0 < i <= n
        invariant pending == old(pending) + Holds(now + offset, i, target)
      {
        ScheduleDelayed(offset + i, Refresh(target));
        i := i + 1;
      }
    }

    /** The clock reaches the tick at which a callback fires. */
    method AdvanceTo(tick: int)
      modifies this`now
      ensures now == tick
    {
      now := tick;
    }
  }

  /** Whether cleanup's own try block throws: at its fallback teleport (only made on error), the detach or the removal. */
  predicate CleanupThrows(error: bool, cf: Fault)
  {
    (error && Throws(cf, 0)) || Throws(cf, 1) || Throws(cf, 2)
  }

  class TransmissionProcess {
    const plugin: Plugin
    const host: Host
    const sched: Scheduler
    const entity: VirtualEntity
    const playerId: int
    const uuid: Uuid
    const origin: Pose
    const destination: Pose
    const durations: Durations
    const upOffset: real
    const playSound: bool
    const useTitle: bool
    var upLocation: Pose
    var downLocation: Pose
    var animationTask: MoveTask?

    ghost predicate Valid()
      reads this`animationTask, entity`removed, entity`currentMoveTask, entity`tasks, entity.tasks
    {
      && entity.Valid() && entity.host == host && entity.playerId == playerId
      && (animationTask != null ==> animationTask in entity.tasks)
    }

    /**
     * What cleanup leaves behind, relative to the state before it: the
     * processing entry is released at once if cleanup threw, and otherwise
     * the proxy is removed and the release is scheduled 5 ticks later.
     */
    twostate predicate CleanedUp(error: bool, cf: Fault)
      reads this, entity, host, sched, plugin
    {
      && (CleanupThrows(error, cf) ==>
            plugin.processing == old(plugin.processing) - {uuid} && sched.pending == old(sched.pending))
      && (!CleanupThrows(error, cf) ==>
            && entity.removed && animationTask == null && plugin.processing == old(plugin.processing)
            && sched.pending == old(sched.pending) + [Delayed(sched.now + ReleaseDelay, Release)])
    }

    /** The constructor: the proxy camera starts at the player's location. */
    constructor (plugin: Plugin, host: Host, sched: Scheduler, playerId: int, uuid: Uuid,
                 origin: Pose, destination: Pose, durations: Durations, upOffset: real,
                 playSound: bool, animationType: string)
      ensures Valid() && fresh(entity)
      ensures this.playSound == playSound && useTitle == UsesTitle(animationType)
      ensures this.plugin == plugin && this.host == host && this.sched == sched
      ensures this.playerId == playerId && this.uuid == uuid && this.origin == origin
      ensures this.destination == destination && this.durations == durations && this.upOffset == upOffset
      ensures entity.location == origin && !entity.removed && entity.tasks == {}
      ensures entity.currentMoveTask == null && animationTask == null
      ensures entity.entityId == SyntheticId(playerId)
    {
      this.plugin, this.host, this.sched := plugin, host, sched;
      this.playerId, this.uuid := playerId, uuid;
      this.origin, this.destination := origin, destination;
      this.durations, this.upOffset := durations, upOffset;
      this.playSound, useTitle := playSound, UsesTitle(animationType);
      entity := new VirtualEntity(host, playerId, origin);
      upLocation, downLocation := origin, destination;
      animationTask := null;
    }

    /**
     * cleanup(error): on error the player is teleported to the destination;
     * the animation task is cancelled, the camera detached, the proxy removed
     * and the second removal with the release scheduled 5 ticks later. If any
     * of this throws, the processing entry is released at once.
     */
    method Cleanup(error: bool, cf: Fault)
      requires Valid()
      modifies this`animationTask, entity`removed, entity`currentMoveTask, entity.tasks,
               host`trace, host`teleports, sched`pending, plugin`processing
      ensures Valid() && CleanedUp(error, cf)
      ensures host.teleports == old(host.teleports) + (if error && !Throws(cf, 0) then [destination] else [])
      ensures host.trace == old(host.trace)
        + (if error && !Throws(cf, 0) then [RealTeleport(playerId, destination)] else [])
        + (if (error && Throws(cf, 0)) || Throws(cf, 1) then [] else [Visibility(playerId, true)])
        + (if CleanupThrows(error, cf) || old(entity.removed) then []
           else [ProxyEffect(entity.entityId, false), RemoveProxy(entity.entityId)])
      ensures !(error && Throws(cf, 0)) ==>
        animationTask == null && (old(animationTask) != null ==> old(animationTask).cancelled)
      ensures error && Throws(cf, 0) ==>
        animationTask == old(animationTask) && forall t :: t in entity.tasks ==> t.cancelled == old(t.cancelled)
      ensures CleanupThrows(error, cf) ==>
        entity.removed == old(entity.removed) && entity.currentMoveTask == old(entity.currentMoveTask)
      ensures forall t :: t in entity.tasks ==> t.counter == old(t.counter)
    {
      if error && Throws(cf, 0) {
        plugin.RemoveProcessingPlayer(uuid);
        return;
      }
      if error {
        host.TeleportPlayer(playerId, destination);
      }
      Dismantle(cf);
    }

    /**
     * cleanup after its fallback teleport: the animation task is cancelled,
     * the camera detached (call 1) and the proxy removed (call 2), and the
     * release scheduled 5 ticks later; if the detach or the removal throws,
     * the processing entry is released at once.
     */
    method Dismantle(cf: Fault)
      requires Valid()
      modifies this`animationTask, entity`removed, entity`currentMoveTask, entity.tasks,
               host`trace, sched`pending, plugin`processing
      ensures Valid() && CleanedUp(false, cf)
      ensures host.trace == old(host.trace)
        + (if Throws(cf, 1) then [] else [Visibility(playerId, true)])
        + (if CleanupThrows(false, cf) || old(entity.removed) then []
           else [ProxyEffect(entity.entityId, false), RemoveProxy(entity.entityId)])
      ensures animationTask == null && (old(animationTask) != null ==> old(animationTask).cancelled)
      ensures CleanupThrows(false, cf) ==>
        entity.removed == old(entity.removed) && entity.currentMoveTask == old(entity.currentMoveTask)
      ensures forall t :: t in entity.tasks ==> t.counter == old(t.counter)
    {
      CancelAnimation();
      if Throws(cf, 1) {
        plugin.RemoveProcessingPlayer(uuid);
        return;
      }
      entity.DetachCamera();
      if Throws(cf, 2) {
        plugin.RemoveProcessingPlayer(uuid);
        return;
      }
      entity.Remove();
      sched.ScheduleDelayed(ReleaseDelay, Release);
    }

    /** Cancels the move task of the current stage, if any, and forgets it. */
    method CancelAnimation()
      requires Valid()
      modifies this`animationTask, entity.tasks
      ensures Valid() && animationTask == null
      ensures old(animationTask) != null ==> old(animationTask).cancelled
      ensures forall t :: t in entity.tasks && t != old(animationTask) ==> t.cancelled == old(t.cancelled)
      ensures forall t :: t in entity.tasks ==> t.counter == old(t.counter)
    {
      if animationTask != null {
        animationTask.Cancel();
        animationTask := null;
      }
    }

    /**
     * The sound and title sent when the player leaves (black screen) and
     * arrives (screen cleared): the teleport sound at `at` if sound is on,
     * the title if the animation type is BOTH.
     */
    function Cues(at: Pose, black: bool): (cues: seq<Event>)
      reads this
      ensures (Sound(playerId, at) in cues <==> playSound) && (Title(playerId, black) in cues <==> useTitle)
      ensures forall e :: e in cues ==> !e.RealTeleport?
    {
      (if playSound then [Sound(playerId, at)] else []) + (if useTitle then [Title(playerId, black)] else [])
    }

    method PlayCues(at: Pose, black: bool)
      modifies host`trace
      ensures host.trace == old(host.trace) + Cues(at, black)
    {
      if playSound {
        host.Send(Sound(playerId, at));
      }
      if useTitle {
        host.Send(Title(playerId, black));
      }
    }

    /**
     * The tail every stage shares: the camera starts moving to `to` over
     * moveTicks ticks (at least one), the hold loop schedules one refresh at
     * `to` for each of the holdTicks ticks after the move's nominal end, and
     * the next stage is scheduled right after the hold.
     */
    method MoveAndHold(to: Pose, moveTicks: int, holdTicks: int, next: Callback)
      requires Valid() && !entity.removed
      modifies this`animationTask, entity`currentMoveTask, entity`tasks, entity.tasks, sched`pending
      ensures Valid() && fresh(entity.tasks - old(entity.tasks))
      ensures animationTask != null && fresh(animationTask) && animationTask == entity.currentMoveTask
      ensures animationTask.start == entity.location && animationTask.end == to
      ensures animationTask.duration == AtLeastOneTick(moveTicks) && !animationTask.cancelled
      ensures forall t :: t in old(entity.tasks) ==> t.cancelled
      ensures sched.pending == old(sched.pending)
        + Holds(sched.now + moveTicks, holdTicks, to) + [Delayed(sched.now + moveTicks + holdTicks, next)]
    {
      animationTask := entity.Move(to, moveTicks);
      sched.ScheduleHolds(moveTicks, holdTicks, to);
      sched.ScheduleDelayed(moveTicks + holdTicks, next);
    }

    /**
     * What stages 2 and 3 end with: the camera is snapped to `snap` (an
     * exception there when snapThrows), then moves on to `to` with its hold
     * and the next stage (an exception in the move when moveThrows); an
     * exception leads to cleanup(e).
     */
    method SnapAndMove(snap: Pose, to: Pose, moveTicks: int, holdTicks: int, next: Callback,
                       snapThrows: bool, moveThrows: bool, cf: Fault)
      requires Valid() && !entity.removed
      modifies this`animationTask, entity`location, entity`removed, entity`currentMoveTask, entity`tasks,
               entity.tasks, host`trace, host`teleports, sched`pending, plugin`processing
      ensures Valid() && fresh(entity.tasks - old(entity.tasks))
      ensures snapThrows || moveThrows ==> CleanedUp(true, cf)
      ensures host.teleports
        == old(host.teleports) + (if (snapThrows || moveThrows) && !Throws(cf, 0) then [destination] else [])
      ensures !snapThrows && !moveThrows ==>
        && host.trace == old(host.trace) + [MoveProxy(entity.entityId, Below(snap)), ViewAt(playerId, snap)]
        && !entity.removed && entity.location == snap
        && animationTask != null && fresh(animationTask) && animationTask == entity.currentMoveTask
        && animationTask.start == snap && animationTask.end == to
        && animationTask.duration == AtLeastOneTick(moveTicks) && !animationTask.cancelled
        && (forall t :: t in old(entity.tasks) ==> t.cancelled)
        && sched.pending == old(sched.pending)
           + Holds(sched.now + moveTicks, holdTicks, to) + [Delayed(sched.now + moveTicks + holdTicks, next)]
        && plugin.processing == old(plugin.processing)
    {
      if snapThrows {
        Cleanup(true, cf);
        return;
      }
      entity.Teleport(snap);
      if moveThrows {
        Cleanup(true, cf);
        return;
      }
      MoveAndHold(to, moveTicks, holdTicks, next);
    }

    /**
     * runAnimationSequence up to the scheduling of stage 2, with its own
     * catch block: the move up (an exception there when moveThrows, leading
     * to cleanup(e)), the hold at the raised start and stage 2.
     */
    method RunAnimationSequence(moveThrows: bool, cf: Fault)
      requires Valid() && !entity.removed
      modifies this`animationTask, entity`removed, entity`currentMoveTask, entity`tasks, entity.tasks,
               host`trace, host`teleports, sched`pending, plugin`processing
      ensures Valid() && fresh(entity.tasks - old(entity.tasks))
      ensures moveThrows ==> CleanedUp(true, cf)
      ensures host.teleports == old(host.teleports) + (if moveThrows && !Throws(cf, 0) then [destination] else [])
      ensures !moveThrows ==>
        && host.trace == old(host.trace) && !entity.removed
        && animationTask != null && fresh(animationTask) && animationTask == entity.currentMoveTask
        && animationTask.start == entity.location && animationTask.end == upLocation
        && animationTask.duration == AtLeastOneTick(durations.up) && !animationTask.cancelled
        && sched.pending == old(sched.pending) + Stage1Schedule(sched.now, durations, upLocation)
        && plugin.processing == old(plugin.processing)
    {
      if moveThrows {
        Cleanup(true, cf);
        return;
      }
      MoveAndHold(upLocation, durations.up, durations.fadeIn, Stage2);
    }

    /**
     * start() with runAnimationSequence up to the scheduling of stage 2.
     * Call 0 stands for the configuration reads before the try block, whose
     * exception escapes to the listener; calls 1, 2 and 3 are spawn,
     * attachCamera and the move up, whose exceptions lead to cleanup(e).
     * Without a fault the camera starts rising from the player's pose towards
     * the raised start, the hold refreshes at the raised start follow the
     * move, and stage 2 is due up + fadeIn ticks from now.
     */
    method Start(fault: Fault, cf: Fault) returns (thrown: bool)
      requires Valid() && !entity.removed && entity.location == origin && animationTask == null
      modifies this`animationTask, this`upLocation, this`downLocation, entity`removed,
               entity`currentMoveTask, entity`tasks, entity.tasks, host`trace, host`teleports, sched`pending, plugin`processing
      ensures Valid() && fresh(entity.tasks - old(entity.tasks))
      ensures thrown <==> Throws(fault, 0)
      ensures thrown ==> (host.trace == old(host.trace) && sched.pending == old(sched.pending)
        && plugin.processing == old(plugin.processing) && unchanged(entity))
      ensures !thrown ==> upLocation == Raised(origin, upOffset) && downLocation == Raised(destination, upOffset)
      ensures ThrowsWithin(fault, 1, 4) ==> CleanedUp(true, cf)
      ensures host.teleports
        == old(host.teleports) + (if ThrowsWithin(fault, 1, 4) && !Throws(cf, 0) then [destination] else [])
      ensures !ThrowsWithin(fault, 0, 4) ==>
        && host.trace == old(host.trace) + [SpawnProxy(entity.entityId, Below(origin)), HideProxy(entity.entityId),
             ProxyEffect(entity.entityId, true), ViewAt(playerId, origin), Visibility(playerId, false)]
           + Cues(origin, true)
        && !entity.removed && entity.location == origin
        && animationTask != null && fresh(animationTask) && animationTask == entity.currentMoveTask
        && animationTask.start == origin && animationTask.end == upLocation
        && animationTask.duration == AtLeastOneTick(durations.up) && !animationTask.cancelled
        && sched.pending == old(sched.pending) + Stage1Schedule(sched.now, durations, upLocation)
        && plugin.processing == old(plugin.processing)
    {
      if Throws(fault, 0) {
        return true;
      }
      thrown := false;
      upLocation := Raised(origin, upOffset);
      downLocation := Raised(destination, upOffset);
      if Throws(fault, 1) {
        Cleanup(true, cf);
        return;
      }
      entity.Spawn();
      if Throws(fault, 2) {
        Cleanup(true, cf);
        return;
      }
      Launch(Throws(fault, 3), cf);
    }

    /**
     * start() from attachCamera on: the view moves to the proxy, the
     * departure cues play and runAnimationSequence starts the move up (an
     * exception there when moveThrows).
     */
    method Launch(moveThrows: bool, cf: Fault)
      requires Valid() && !entity.removed && entity.location == origin
      modifies this`animationTask, entity`removed, entity`currentMoveTask, entity`tasks, entity.tasks,
               host`trace, host`teleports, sched`pending, plugin`processing
      ensures Valid() && fresh(entity.tasks - old(entity.tasks))
      ensures moveThrows ==> CleanedUp(true, cf)
      ensures host.teleports == old(host.teleports) + (if moveThrows && !Throws(cf, 0) then [destination] else [])
      ensures !moveThrows ==>
        && host.trace == old(host.trace) + [ViewAt(playerId, origin), Visibility(playerId, false)] + Cues(origin, true)
        && !entity.removed && entity.location == origin
        && animationTask != null && fresh(animationTask) && animationTask == entity.currentMoveTask
        && animationTask.start == origin && animationTask.end == upLocation
        && animationTask.duration == AtLeastOneTick(durations.up) && !animationTask.cancelled
        && sched.pending == old(sched.pending) + Stage1Schedule(sched.now, durations, upLocation)
        && plugin.processing == old(plugin.processing)
    {
      entity.AttachCamera();
      PlayCues(origin, true);
      RunAnimationSequence(moveThrows, cf);
    }

    /**
     * The stage 2 callback: call 0 snaps the camera to the raised start,
     * call 1 starts the move across to the raised destination over stay
     * ticks; an exception in either leads to cleanup(e). Without a fault the
     * fade-out hold refreshes at the raised destination follow, and stage 3
     * is due stay + fadeOut ticks from now.
     */
    method Stage2Run(fault: Fault, cf: Fault)
      requires Valid() && !entity.removed
      modifies this`animationTask, entity`location, entity`removed, entity`currentMoveTask, entity`tasks,
               entity.tasks, host`trace, host`teleports, sched`pending, plugin`processing
      ensures Valid() && fresh(entity.tasks - old(entity.tasks))
      ensures ThrowsWithin(fault, 0, 2) ==> CleanedUp(true, cf)
      ensures host.teleports
        == old(host.teleports) + (if ThrowsWithin(fault, 0, 2) && !Throws(cf, 0) then [destination] else [])
      ensures !ThrowsWithin(fault, 0, 2) ==>
        && host.trace == old(host.trace) + [MoveProxy(entity.entityId, Below(upLocation)), ViewAt(playerId, upLocation)]
        && !entity.removed && entity.location == upLocation
        && animationTask != null && fresh(animationTask) && animationTask == entity.currentMoveTask
        && animationTask.start == upLocation && animationTask.end == downLocation
        && animationTask.duration == AtLeastOneTick(durations.stay) && !animationTask.cancelled
        && (forall t :: t in old(entity.tasks) ==> t.cancelled)
        && sched.pending == old(sched.pending) + Stage2Schedule(sched.now, durations, downLocation)
        && plugin.processing == old(plugin.processing)
    {
      SnapAndMove(upLocation, downLocation, durations.stay, durations.fadeOut, Stage3,
                  Throws(fault, 0), Throws(fault, 1), cf);
    }

    /**
     * The stage 3 callback: call 0 adds the fall-damage resistance, call 1
     * is the one real teleport of the player to the destination, call 2
     * snaps the camera to the raised destination and call 3 starts the move
     * down to the destination; an exception in any of them leads to
     * cleanup(e). The player ends at the destination unless neither this
     * stage's teleport nor cleanup's fallback teleport took place.
     */
    method Stage3Run(fault: Fault, cf: Fault)
      requires Valid() && !entity.removed
      modifies this`animationTask, entity`location, entity`removed, entity`currentMoveTask, entity`tasks,
               entity.tasks, host`trace, host`teleports, sched`pending, plugin`processing
      ensures Valid() && fresh(entity.tasks - old(entity.tasks))
      ensures ThrowsWithin(fault, 0, 4) ==> CleanedUp(true, cf)
      ensures host.teleports == old(host.teleports)
        + (if ThrowsWithin(fault, 0, 2) then [] else [destination])
        + (if ThrowsWithin(fault, 0, 4) && !Throws(cf, 0) then [destination] else [])
      ensures !ThrowsWithin(fault, 0, 4) ==>
        && host.trace == old(host.trace) + [Resistance(playerId), RealTeleport(playerId, destination)]
           + Cues(destination, false) + [MoveProxy(entity.entityId, Below(downLocation)), ViewAt(playerId, downLocation)]
        && !entity.removed && entity.location == downLocation
        && animationTask != null && fresh(animationTask) && animationTask == entity.currentMoveTask
        && animationTask.start == downLocation && animationTask.end == destination
        && animationTask.duration == AtLeastOneTick(durations.down) && !animationTask.cancelled
        && (forall t :: t in old(entity.tasks) ==> t.cancelled)
        && sched.pending == old(sched.pending) + Stage3Schedule(sched.now, durations, destination)
        && plugin.processing == old(plugin.processing)
    {
      if Throws(fault, 0) {
        Cleanup(true, cf);
        return;
      }
      Brace(Throws(fault, 1), Throws(fault, 2), Throws(fault, 3), cf);
    }

    /**
     * Stage 3 from the fall-damage protection on: the resistance effect (an
     * exception right after it when braceThrows), then the landing.
     */
    method Brace(braceThrows: bool, snapThrows: bool, moveThrows: bool, cf: Fault)
      requires Valid() && !entity.removed
      modifies this`animationTask, entity`location, entity`removed, entity`currentMoveTask, entity`tasks,
               entity.tasks, host`trace, host`teleports, sched`pending, plugin`processing
      ensures Valid() && fresh(entity.tasks - old(entity.tasks))
      ensures braceThrows || snapThrows || moveThrows ==> CleanedUp(true, cf)
      ensures host.teleports == old(host.teleports)
        + (if braceThrows then [] else [destination])
        + (if (braceThrows || snapThrows || moveThrows) && !Throws(cf, 0) then [destination] else [])
      ensures !braceThrows && !snapThrows && !moveThrows ==>
        && host.trace == old(host.trace) + [Resistance(playerId), RealTeleport(playerId, destination)]
           + Cues(destination, false) + [MoveProxy(entity.entityId, Below(downLocation)), ViewAt(playerId, downLocation)]
        && !entity.removed && entity.location == downLocation
        && animationTask != null && fresh(animationTask) && animationTask == entity.currentMoveTask
        && animationTask.start == downLocation && animationTask.end == destination
        && animationTask.duration == AtLeastOneTick(durations.down) && !animationTask.cancelled
        && (forall t :: t in old(entity.tasks) ==> t.cancelled)
        && sched.pending == old(sched.pending) + Stage3Schedule(sched.now, durations, destination)
        && plugin.processing == old(plugin.processing)
    {
      host.Send(Resistance(playerId));
      if braceThrows {
        Cleanup(true, cf);
        return;
      }
      Land(snapThrows, moveThrows, cf);
    }

    /**
     * Stage 3 from the real teleport on: the teleport to the destination,
     * the arrival cues, the snap of the camera to the lowered destination
     * (an exception there when snapThrows) and the move down to the
     * destination (an exception there when moveThrows).
     */
    method Land(snapThrows: bool, moveThrows: bool, cf: Fault)
      requires Valid() && !entity.removed
      modifies this`animationTask, entity`location, entity`removed, entity`currentMoveTask, entity`tasks,
               entity.tasks, host`trace, host`teleports, sched`pending, plugin`processing
      ensures Valid() && fresh(entity.tasks - old(entity.tasks))
      ensures snapThrows || moveThrows ==> CleanedUp(true, cf)
      ensures host.teleports == old(host.teleports) + [destination]
        + (if (snapThrows || moveThrows) && !Throws(cf, 0) then [destination] else [])
      ensures !snapThrows && !moveThrows ==>
        && host.trace == old(host.trace) + [RealTeleport(playerId, destination)]
           + Cues(destination, false) + [MoveProxy(entity.entityId, Below(downLocation)), ViewAt(playerId, downLocation)]
        && !entity.removed && entity.location == downLocation
        && animationTask != null && fresh(animationTask) && animationTask == entity.currentMoveTask
        && animationTask.start == downLocation && animationTask.end == destination
        && animationTask.duration == AtLeastOneTick(durations.down) && !animationTask.cancelled
        && (forall t :: t in old(entity.tasks) ==> t.cancelled)
        && sched.pending == old(sched.pending) + Stage3Schedule(sched.now, durations, destination)
        && plugin.processing == old(plugin.processing)
    {
      host.TeleportPlayer(playerId, destination);
      PlayCues(destination, false);
      SnapAndMove(downLocation, destination, durations.down, durations.downStay, Final, snapThrows, moveThrows, cf);
    }

    /** The final callback: cleanup(null), which makes no further teleport. */
    method FinalRun(cf: Fault)
      requires Valid()
      modifies this`animationTask, entity`removed, entity`currentMoveTask, entity.tasks,
               host`trace, host`teleports, sched`pending, plugin`processing
      ensures Valid() && CleanedUp(false, cf)
      ensures host.teleports == old(host.teleports)
      ensures host.trace == old(host.trace)
        + (if Throws(cf, 1) then [] else [Visibility(playerId, true)])
        + (if CleanupThrows(false, cf) || old(entity.removed) then []
           else [ProxyEffect(entity.entityId, false), RemoveProxy(entity.entityId)])
      ensures animationTask == null && (old(animationTask) != null ==> old(animationTask).cancelled)
      ensures CleanupThrows(false, cf) ==>
        entity.removed == old(entity.removed) && entity.currentMoveTask == old(entity.currentMoveTask)
      ensures forall t :: t in entity.tasks ==> t.counter == old(t.counter)
    {
      Cleanup(false, cf);
    }

    /** A hold callback: refreshes the player's view at target, unless the proxy is removed. */
    method RefreshRun(target: Pose)
      requires Valid()
      modifies host`trace
      ensures host.trace == old(host.trace) + (if entity.removed then [] else [ViewAt(playerId, target)])
    {
      entity.UpdateCamera(target);
    }

    /**
     * The release callback 5 ticks after cleanup: the second removal, which
     * sends nothing when the first one went through, and the release of the
     * processing entry.
     */
    method ReleaseRun()
      requires Valid()
      modifies entity`removed, entity`currentMoveTask, entity.tasks, host`trace, plugin`processing
      ensures Valid() && entity.removed
      ensures plugin.processing == old(plugin.processing) - {uuid} && !plugin.IsProcessingTeleport(uuid)
      ensures old(entity.removed) ==> host.trace == old(host.trace)
    {
      entity.Remove();
      plugin.RemoveProcessingPlayer(uuid);
    }
  }

  /**
   * The three stages of a sequence without exceptions, each run when the
   * clock reaches its due tick: the player is teleported exactly once, to
   * the destination, and the stages schedule their holds and successors.
   */
  method RunStages(p: TransmissionProcess)
    requires p.Valid() && !p.entity.removed && p.entity.location == p.origin && p.animationTask == null
    modifies p`animationTask, p`upLocation, p`downLocation, p.entity`location, p.entity`removed,
             p.entity`currentMoveTask, p.entity`tasks, p.entity.tasks, p.host`trace, p.host`teleports,
             p.sched`now, p.sched`pending, p.plugin`processing
    ensures p.Valid() && fresh(p.entity.tasks - old(p.entity.tasks))
    ensures p.sched.now == old(p.sched.now) + Stage3Tick(p.durations)
    ensures p.sched.pending == old(p.sched.pending)
      + Stage1Schedule(old(p.sched.now), p.durations, p.upLocation)
      + Stage2Schedule(old(p.sched.now) + Stage2Tick(p.durations), p.durations, p.downLocation)
      + Stage3Schedule(old(p.sched.now) + Stage3Tick(p.durations), p.durations, p.destination)
    ensures p.upLocation == Raised(p.origin, p.upOffset) && p.downLocation == Raised(p.destination, p.upOffset)
    ensures p.host.teleports == old(p.host.teleports) + [p.destination]
    ensures p.plugin.processing == old(p.plugin.processing)
    ensures !p.entity.removed
  {
    var t0 := p.sched.now;
    ghost var q0 := p.sched.pending;
    var thrown := p.Start(NoFault, NoFault);
    ghost var s1 := Stage1Schedule(t0, p.durations, p.upLocation);
    assert p.sched.pending == q0 + s1;
    p.sched.AdvanceTo(t0 + Stage2Tick(p.durations));
    p.Stage2Run(NoFault, NoFault);
    ghost var s2 := Stage2Schedule(t0 + Stage2Tick(p.durations), p.durations, p.downLocation);
    assert p.sched.pending == q0 + s1 + s2;
    p.sched.AdvanceTo(t0 + Stage3Tick(p.durations));
    p.Stage3Run(NoFault, NoFault);
  }

  /**
   * A whole sequence without exceptions, each callback run when the clock
   * reaches its due tick: the callbacks scheduled are exactly the full
   * plan, the player is teleported exactly once, to the destination, and in
   * the end the proxy is removed and the player is no longer processing.
   */
  method RunWithoutFaults(p: TransmissionProcess)
    requires p.Valid() && !p.entity.removed && p.entity.location == p.origin && p.animationTask == null
    modifies p`animationTask, p`upLocation, p`downLocation, p.entity`location, p.entity`removed,
             p.entity`currentMoveTask, p.entity`tasks, p.entity.tasks, p.host`trace, p.host`teleports,
             p.sched`now, p.sched`pending, p.plugin`processing
    ensures p.Valid() && p.entity.removed
    ensures p.sched.pending == old(p.sched.pending)
      + FullSchedule(old(p.sched.now), p.durations, p.upLocation, p.downLocation, p.destination)
    ensures p.upLocation == Raised(p.origin, p.upOffset) && p.downLocation == Raised(p.destination, p.upOffset)
    ensures p.host.teleports == old(p.host.teleports) + [p.destination]
    ensures p.plugin.processing == old(p.plugin.processing) - {p.uuid}
    ensures |p.host.trace| >= 3
    ensures p.host.trace[|p.host.trace| - 3..]
      == [Visibility(p.playerId, true), ProxyEffect(p.entity.entityId, false), RemoveProxy(p.entity.entityId)]
  {
    var t0 := p.sched.now;
    ghost var q0 := p.sched.pending;
    RunStages(p);
    ghost var stages := p.sched.pending;
    p.sched.AdvanceTo(t0 + FinalTick(p.durations));
    p.FinalRun(NoFault);
    assert p.sched.pending == stages + [Delayed(t0 + FinalTick(p.durations) + ReleaseDelay, Release)];
    assert p.sched.pending == q0 + FullSchedule(t0, p.durations, p.upLocation, p.downLocation, p.destination);
    p.sched.AdvanceTo(t0 + FinalTick(p.durations) + ReleaseDelay);
    p.ReleaseRun();
  }
}
