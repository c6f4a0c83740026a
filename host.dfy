/**
 * The host game server as the animation sees it: every packet, effect and
 * real teleport the plugin issues is appended to a trace of events, and the
 * only host state that the plugin reads back is whether the player is online.
 * Packet layouts are not modelled; an event carries the entity or player id
 * and the pose it was sent with.
 */
module HostApi {
  import opened Poses

  datatype Event =
    | SpawnProxy(eid: int, at: Pose)          // AddEntityPacket for the proxy entity
    | HideProxy(eid: int)                     // SetEntityDataPacket with the invisibility metadata
    | ProxyEffect(eid: int, add: bool)        // MobEffectPacket adding or removing invisibility
    | MoveProxy(eid: int, at: Pose)           // MoveEntityAbsolutePacket for the proxy entity
    | ViewAt(player: int, at: Pose)           // MovePlayerPacket placing the player's own view
    | Visibility(player: int, visible: bool)  // player flags broadcast to every other player
    | Resistance(player: int)                 // Player.addEffect of the fall-damage resistance
    | RealTeleport(player: int, at: Pose)     // Player.teleport: the real position change
    | RemoveProxy(eid: int)                   // RemoveEntityPacket for the proxy entity
    | Sound(player: int, at: Pose)            // LevelEventPacket with the teleport sound
    | Title(player: int, black: bool)         // Player.sendTitle: the black screen, or clearing it

  /**
   * The host as far as the animation changes it: the trace of every packet,
   * effect and real teleport, in order; the destinations of the real
   * teleports of the player, in order; and whether the player is online.
   */
  class Host {
    var trace: seq<Event>
    var teleports: seq<Pose>
    var online: bool

    constructor (online: bool)
      ensures trace == [] && teleports == [] && this.online == online
    {
      trace := [];
      teleports := [];
      this.online := online;
    }

    /** Sends a packet or applies an effect; a real teleport goes through TeleportPlayer instead. */
    method Send(e: Event)
      requires !e.RealTeleport?
      modifies this`trace
      ensures trace == old(trace) + [e]
    {
      trace := trace + [e];
    }

    /** `Player.teleport`: the one call that changes where the player really is. */
    method TeleportPlayer(player: int, at: Pose)
      modifies this`trace, this`teleports
      ensures trace == old(trace) + [RealTeleport(player, at)]
      ensures teleports == old(teleports) + [at]
    {
      trace := trace + [RealTeleport(player, at)];
      teleports := teleports + [at];
    }
  }

  /**
   * Where an exception is injected into a run of host calls: nowhere, or at
   * the call with the given index, which then has no effect and throws.
   */
  datatype Fault = NoFault | FaultAt(step: nat)

  predicate Throws(f: Fault, k: nat)
  {
    f == FaultAt(k)
  }

  /** Whether one of the calls lo, ..., hi - 1 throws. */
  predicate ThrowsWithin(f: Fault, lo: nat, hi: nat)
  {
    f.FaultAt? && lo <= f.step < hi
  }
}
