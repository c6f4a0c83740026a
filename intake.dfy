/**
 * The teleport listener of Main.java, onPlayerTeleport: it decides whether a
 * teleport is left alone, done at once or taken over by the animation, and
 * keeps the per-player processing set. The configuration values the
 * sequence reads (the gta.* durations and the up offset) are parameters.
 */
module Intake {
  import opened Poses
  import opened HostApi
  import opened Camera
  import opened PluginMain
  import opened Transmission

  /** A PlayerTeleportEvent: the player, both locations with their level names, and the cause. */
  datatype TeleportRequest = TeleportRequest(
    uuid: Uuid, playerId: int,
    from: Pose, fromLevel: string,
    to: Pose, toLevel: string,
    cause: TeleportCause)

  function CrossWorld(ev: TeleportRequest): bool
  {
    ev.fromLevel != ev.toLevel
  }

  /**
   * onPlayerTeleport. `fault` says whether the listener's own instant
   * teleport of a cross-world request throws (call 0); `startFault` and
   * `cleanupFault` are the faults of the started sequence's first stage and
   * of its cleanup. The catch block releases the player and teleports it
   * directly. The result says whether the event was cancelled and, for an
   * animated request whose start did not throw, the process started.
   */
  method OnPlayerTeleport(plugin: Plugin, host: Host, sched: Scheduler, ev: TeleportRequest,
                          d: Durations, upOffset: real, fault: Fault, startFault: Fault, cleanupFault: Fault)
    returns (cancelled: bool, process: TransmissionProcess?)
    modifies plugin`processing, host`trace, host`teleports, sched`pending
    ensures var dec := Decide(old(plugin.processing), ev.uuid, ev.cause, CrossWorld(ev));
      && (cancelled <==> dec == Animated)
      && (process != null <==> dec == Animated && !Throws(startFault, 0))
      && (dec == AlreadyProcessing || dec == IgnoredCause ==>
            plugin.processing == old(plugin.processing) && host.trace == old(host.trace)
            && host.teleports == old(host.teleports) && sched.pending == old(sched.pending))
      && (dec == InstantCrossWorld ==>
            plugin.processing == ProcessingAfter(old(plugin.processing), ev.uuid, dec, false)
            && host.trace == old(host.trace) + [RealTeleport(ev.playerId, ev.to)]
            && host.teleports == old(host.teleports) + [ev.to] && sched.pending == old(sched.pending))
      && (dec == Animated && Throws(startFault, 0) ==>
            plugin.processing == ProcessingAfter(old(plugin.processing), ev.uuid, dec, true)
            && host.trace == old(host.trace) + [RealTeleport(ev.playerId, ev.to)]
            && host.teleports == old(host.teleports) + [ev.to] && sched.pending == old(sched.pending))
      && (process != null ==>
            && fresh(process) && fresh(process.entity) && process.Valid()
            && process.plugin == plugin && process.host == host && process.sched == sched
            && process.uuid == ev.uuid && process.playerId == ev.playerId
            && process.origin == ev.from && process.destination == ev.to && process.durations == d
            && process.playSound == plugin.playSound && process.useTitle == UsesTitle(plugin.animationType)
            && process.upLocation == Raised(ev.from, upOffset) && process.downLocation == Raised(ev.to, upOffset))
      && (dec == Animated && !ThrowsWithin(startFault, 0, 4) ==>
            plugin.processing == ProcessingAfter(old(plugin.processing), ev.uuid, dec, false)
            && host.teleports == old(host.teleports)
            && sched.pending == old(sched.pending) + Stage1Schedule(sched.now, d, process.upLocation))
      && (dec == Animated && ThrowsWithin(startFault, 1, 4) ==>
            host.teleports == old(host.teleports) + (if Throws(cleanupFault, 0) then [] else [ev.to])
            && plugin.processing == old(plugin.processing)
               + (if CleanupThrows(true, cleanupFault) then {} else {ev.uuid}))
  {
    cancelled, process := false, null;
    if plugin.IsProcessingTeleport(ev.uuid) {
      return;
    }
    if ev.cause == EnderPearl || ev.cause == ChorusFruit {
      return;
    }
    var isCrossWorld := ev.fromLevel != ev.toLevel;
    plugin.AddProcessingPlayer(ev.uuid);
    if isCrossWorld {
      if Throws(fault, 0) {
        plugin.RemoveProcessingPlayer(ev.uuid);
        host.TeleportPlayer(ev.playerId, ev.to);
        return;
      }
      host.TeleportPlayer(ev.playerId, ev.to);
      plugin.RemoveProcessingPlayer(ev.uuid);
    } else {
      cancelled := true;
      var p := new TransmissionProcess(plugin, host, sched, ev.playerId, ev.uuid, ev.from, ev.to, d, upOffset,
                                       plugin.playSound, plugin.animationType);
      var thrown := p.Start(startFault, cleanupFault);
      if thrown {
        plugin.RemoveProcessingPlayer(ev.uuid);
        host.TeleportPlayer(ev.playerId, ev.to);
        return;
      }
      process := p;
    }
  }
}
