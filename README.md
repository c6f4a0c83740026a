# SmoothTP in Dafny

SmoothTP is a Nukkit server plugin that turns a same-world player teleport
into a "GTA-style" camera flight. The plugin cancels the teleport. A client-side
proxy entity is spawned 10000 blocks below the camera, and the player's view
is locked to it. The camera then goes through three stages:

1. It rises by the configured offset and looks straight down.
2. It flies across to above the destination.
3. The player is really teleported, and the camera descends onto the destination.

Cleanup then detaches the camera, removes the proxy and, 5 ticks later,
releases the player's entry in the plugin's set of players being processed.

The model has six modules, one per part of the plugin:

- `Poses` (poses.dfy): the pure numeric part of a camera move. This is the cubic
  ease-in-out curve, per-component interpolation and the raw progress of a
  move's countdown. Positions and angles are exact reals.
- `HostApi` (host.dfy): the server as the plugin sees it. A `Host` object
  records every packet, effect and title the plugin sends as an `Event` on a
  trace. It also keeps the log of the player's real teleports, and says whether
  the player is online. A `Fault` says which top-level call of a run throws.
  That call then has no effect.
- `Camera` (virtual_entity.dfy): the proxy entity of VirtualEntity.java, as a
  class with its location, `removed` flag and current move task. A move task is
  a class with its countdown and `cancelled` flag. `Tick` is one run of the
  repeating move body. `RunMove` drives a task to its end and proves where the
  camera is on every tick.
- `PluginMain` (plugin.dfy): the state of Main.java that matters here. This is
  the processing set, the configuration validation and the teleport-intake
  decision.
- `Transmission` (transmission.dfy): TransmissionProcess.java. The Nukkit
  scheduler is a `Scheduler` object: the current tick plus the queue of
  delayed callbacks registered so far, each stamped with its due tick. Each
  stage is a method that runs when its callback fires. A stage's exception
  leads to `Cleanup`, whose own exceptions release the player at once.
- `Intake` (intake.dfy): the `onPlayerTeleport` listener.

The main results are these:

- In a fault-free run, the player is really teleported exactly once, to the
  destination, and every callback is scheduled at the documented tick
  (`RunWithoutFaults`, `FullScheduleLayout`).
- An exception in `start` after its configuration reads, or in the body of
  stage 2 or stage 3, leads to cleanup, whose fallback teleport takes the
  player to the destination unless that teleport itself throws (`Start`,
  `Stage2Run`, `Stage3Run`, `Cleanup`). An exception in the configuration
  reads of `start` escapes to the listener, whose catch teleports the player
  directly (`OnPlayerTeleport`). The final callback has no handler; see
  "Left out".
- Every camera pose of a move stays between its start and its end, and the
  move ends exactly at its end pose (`RunMove`, `TickPoseWithin`).
- The ease curve stays in [0, 1], is monotone and is symmetric
  (`EaseRange`, `EaseMonotone`, `EaseSymmetric`).
- The listener's processing set makes it ignore the sequence's own teleport
  (`DecisionOutcomes`).

The model follows the code in these places:

- The real teleport happens in the third stage, at tick up + fadeIn + stay +
  fadeOut (120 with the defaults).
- `spawn` has no removed check.
- Only the move duration is clamped to at least one tick. The hold counts are
  used as given, so a negative one schedules no refreshes.
- The animation types are TITLE, GTA and BOTH.
- A cross-world teleport is performed by the listener itself, and the event
  is left uncancelled.
- A player who goes offline mid-sequence does not abort it. Only the move
  task checks `isOnline` (VirtualEntity.java:205), and it just cancels
  itself; the later stage callbacks still run, and the processing entry is
  released only by cleanup.

The model departs from the code in one place:

- The title fade of a sequence is decided from the validated animation type
  (`UsesTitle`: the type is BOTH), not from the raw configuration string's
  `contains("BOTH")` at TransmissionProcess.java:53. The process and the
  listener use this corrected decision; the written one is kept as
  `UsesTitleAsWritten` (see Findings).

## Model

| member | source | states |
|---|---|---|
| Poses.EaseEndpoints | smoothtp/src/main/java/com/youssgm3o8/smoothtp/VirtualEntity.java:295-297 | easeInOutCubic starts at 0, passes through 1/2 halfway and ends at 1 |
| Poses.EaseRange | smoothtp/src/main/java/com/youssgm3o8/smoothtp/VirtualEntity.java:295-297 | the cubic ease maps [0, 1] into [0, 1], and keeps each half of the range on its own side of 1/2 |
| Poses.EaseMonotone | smoothtp/src/main/java/com/youssgm3o8/smoothtp/VirtualEntity.java:295-297 | the ease curve never turns back: a larger progress is never eased to a smaller value |
| Poses.EaseSymmetric | smoothtp/src/main/java/com/youssgm3o8/smoothtp/VirtualEntity.java:295-297 | ease-in mirrors ease-out: ease(1 - t) = 1 - ease(t) |
| Poses.Interpolate | smoothtp/src/main/java/com/youssgm3o8/smoothtp/VirtualEntity.java:221-234 | weight 0 yields the start pose and weight 1 the end pose |
| Poses.InterpolateWithin | smoothtp/src/main/java/com/youssgm3o8/smoothtp/VirtualEntity.java:221-234 | interpolation with a weight in [0, 1] lies, component by component, between the two poses |
| Poses.BelowWithin | smoothtp/src/main/java/com/youssgm3o8/smoothtp/VirtualEntity.java:236-238 | a pose between two poses, lowered by the camera offset, lies between the two lowered poses |
| Poses.ProgressOfTick | smoothtp/src/main/java/com/youssgm3o8/smoothtp/VirtualEntity.java:213-214 | after k runs of a move the raw progress is k / duration: 0 on the first run, below 1 while the countdown is positive |
| Poses.TickPoseWithin | smoothtp/src/main/java/com/youssgm3o8/smoothtp/VirtualEntity.java:213-234 | the pose a move run computes lies between start and end, and the first run shows the start pose exactly |
| Poses.MoveEndpoints | smoothtp/src/main/java/com/youssgm3o8/smoothtp/VirtualEntity.java:213-234 | a move run that finds the countdown at its full duration shows the start pose, and a countdown at zero gives the end pose |
| Camera.WrapLong | smoothtp/src/main/java/com/youssgm3o8/smoothtp/VirtualEntity.java:71 | long arithmetic stays in the 64-bit range and leaves in-range values alone |
| Camera.SyntheticId | smoothtp/src/main/java/com/youssgm3o8/smoothtp/VirtualEntity.java:71 | the proxy id of a player whose id does not wrap is at most -1000, never the player's own id |
| Camera.SyntheticIdInjective | smoothtp/src/main/java/com/youssgm3o8/smoothtp/VirtualEntity.java:71 | distinct players get distinct proxy ids, for every pair of long ids, including those whose proxy id wraps |
| Camera.SyntheticIdWrapsAtMaxLong | smoothtp/src/main/java/com/youssgm3o8/smoothtp/VirtualEntity.java:71 | for the largest long id the subtraction wraps and the proxy id becomes positive |
| Camera.AtLeastOneTick | smoothtp/src/main/java/com/youssgm3o8/smoothtp/VirtualEntity.java:194 | a move lasts at least one tick: a positive duration is kept and any other becomes 1 |
| Camera.MoveTask.constructor | smoothtp/src/main/java/com/youssgm3o8/smoothtp/VirtualEntity.java:194-204 | a new move task captures start, end and the clamped duration, and its countdown starts at that duration |
| Camera.MoveTask.Cancel | smoothtp/src/main/java/com/youssgm3o8/smoothtp/VirtualEntity.java:264-266 | cancelling marks the task cancelled and changes nothing else |
| Camera.VirtualEntity.constructor | smoothtp/src/main/java/com/youssgm3o8/smoothtp/VirtualEntity.java:67-73 | the proxy takes the synthetic id and the player's location, is not removed and has no move task |
| Camera.VirtualEntity.Spawn | smoothtp/src/main/java/com/youssgm3o8/smoothtp/VirtualEntity.java:78-122 | spawning sends the proxy 10000 below the camera pose, its invisibility metadata and the invisibility effect, even after removal |
| Camera.VirtualEntity.UpdateCamera | smoothtp/src/main/java/com/youssgm3o8/smoothtp/VirtualEntity.java:310-326 | the player's view is placed at the given pose, and nothing is sent once the proxy is removed |
| Camera.VirtualEntity.UpdateCameraAtLocation | smoothtp/src/main/java/com/youssgm3o8/smoothtp/VirtualEntity.java:302-304 | the view is refreshed at the stored camera pose |
| Camera.VirtualEntity.Teleport | smoothtp/src/main/java/com/youssgm3o8/smoothtp/VirtualEntity.java:148-173 | unless removed: the camera pose is stored, the proxy is moved below it and the view is put on it; once removed, nothing changes |
| Camera.VirtualEntity.Move | smoothtp/src/main/java/com/youssgm3o8/smoothtp/VirtualEntity.java:181-279 | unless removed: every earlier task is cancelled, and a fresh task from the current pose to the target over max(1, duration) ticks becomes the current one; once removed, null is returned and nothing changes |
| Camera.VirtualEntity.Tick | smoothtp/src/main/java/com/youssgm3o8/smoothtp/VirtualEntity.java:204-274 | when the player is offline, the task only cancels itself (the removed half of that guard cannot fire for a live task, since removal cancels every task); otherwise it sends the eased pose, decrements the countdown, and on reaching zero snaps to the end pose and cancels itself |
| Camera.VirtualEntity.AttachCamera | smoothtp/src/main/java/com/youssgm3o8/smoothtp/VirtualEntity.java:331-352 | unless removed: the view is refreshed at the camera pose and the player is hidden from others |
| Camera.VirtualEntity.DetachCamera | smoothtp/src/main/java/com/youssgm3o8/smoothtp/VirtualEntity.java:357-372 | the player is made visible to others again, even after removal |
| Camera.VirtualEntity.Remove | smoothtp/src/main/java/com/youssgm3o8/smoothtp/VirtualEntity.java:388-410 | the first call marks the proxy removed, cancels and forgets a still-active current task, leaves every task cancelled with its countdown unchanged, and sends the effect removal and then the entity removal; any later call sends nothing |
| Camera.RunMove | smoothtp/src/main/java/com/youssgm3o8/smoothtp/VirtualEntity.java:204-274 | run once per tick with the proxy live and the player online, a move stops after exactly duration runs and ends exactly at its target; every view and proxy position sent lies between start and target |
| PluginMain.ToUpper | smoothtp/src/main/java/com/youssgm3o8/smoothtp/Main.java:72 | upper-casing keeps the length and upper-cases each ASCII letter in place |
| PluginMain.ToUpperIdempotent | smoothtp/src/main/java/com/youssgm3o8/smoothtp/Main.java:72 | upper-casing twice is upper-casing once |
| PluginMain.ValidAnimationType | smoothtp/src/main/java/com/youssgm3o8/smoothtp/Main.java:72-80 | the loaded animation type is the upper-cased configured value when that is TITLE, GTA or BOTH, and GTA otherwise |
| PluginMain.ValidFadeDuration | smoothtp/src/main/java/com/youssgm3o8/smoothtp/Main.java:83-86 | a configured fade duration of at least one tick is kept, and any other becomes 15 |
| PluginMain.ValidFadeInDelay | smoothtp/src/main/java/com/youssgm3o8/smoothtp/Main.java:89-92 | a non-negative configured fade-in delay is kept, and a negative one becomes 5 |
| PluginMain.ValidationIdempotent | smoothtp/src/main/java/com/youssgm3o8/smoothtp/Main.java:65-93 | validating an already validated configuration changes nothing, and the type's letter case does not matter |
| PluginMain.UpperTypesFixed | smoothtp/src/main/java/com/youssgm3o8/smoothtp/Main.java:77 | each accepted animation type name is already upper case |
| PluginMain.AnimationTypeExamples | smoothtp/src/main/java/com/youssgm3o8/smoothtp/Main.java:72-80 | "both" loads as BOTH, "Title" as TITLE, and an unknown or empty type as GTA |
| PluginMain.UsesTitleExactlyBoth | smoothtp/src/main/java/com/youssgm3o8/smoothtp/TransmissionProcess.java:53 | with the intended decision, the title fade is used exactly for the case-insensitive spellings of BOTH |
| PluginMain.UsesTitleAsWrittenDisagrees | smoothtp/src/main/java/com/youssgm3o8/smoothtp/TransmissionProcess.java:53 | the written decision gives "both", which loads as BOTH, no title, and gives "BOTH ", which loads as GTA, a title |
| PluginMain.Decide | smoothtp/src/main/java/com/youssgm3o8/smoothtp/Main.java:101-130 | a request is ignored exactly when the player is processing or, failing that, the cause is ender pearl or chorus fruit; it is animated exactly when neither holds and both worlds are the same |
| PluginMain.ProcessingAfter | smoothtp/src/main/java/com/youssgm3o8/smoothtp/Main.java:115-136 | the listener changes no other player's entry, and the player stays processing exactly when an animation was started without an exception, or was already processing and the request was ignored |
| PluginMain.DecisionOutcomes | smoothtp/src/main/java/com/youssgm3o8/smoothtp/Main.java:96-137 | a request is animated exactly when the player is not processing, the cause is neither ender pearl nor chorus fruit, and the worlds match; only then does the player stay in the processing set, so a second request is ignored; after the catch path the player is released, so a same-world request arriving then is animated again; no other player's entry changes |
| PluginMain.Plugin.LoadConfig | smoothtp/src/main/java/com/youssgm3o8/smoothtp/Main.java:65-93 | each configuration field holds its validated value |
| PluginMain.Plugin.AddProcessingPlayer | smoothtp/src/main/java/com/youssgm3o8/smoothtp/Main.java:215-228 | the player is added to the processing set, so isProcessingTeleport now reports it |
| PluginMain.Plugin.RemoveProcessingPlayer | smoothtp/src/main/java/com/youssgm3o8/smoothtp/Main.java:201-217 | the player leaves the processing set, so isProcessingTeleport no longer reports it, and removing an absent player changes nothing |
| PluginMain.Plugin.OnDisable | smoothtp/src/main/java/com/youssgm3o8/smoothtp/Main.java:186-192 | no player is processing afterwards |
| Transmission.Raised | smoothtp/src/main/java/com/youssgm3o8/smoothtp/TransmissionProcess.java:64-70 | a raised pose keeps x, z and yaw, is upOffset higher and looks straight down |
| Transmission.HoldsAt | smoothtp/src/main/java/com/youssgm3o8/smoothtp/TransmissionProcess.java:136-141 | a hold loop schedules max(0, n) refreshes of the same target, on consecutive ticks from its base |
| Transmission.FullScheduleLayout | smoothtp/src/main/java/com/youssgm3o8/smoothtp/TransmissionProcess.java:113-229 | in a fault-free run each stage is due at the sum of the durations before it; each hold fills the ticks from its move's nominal end up to the next stage; the release comes 5 ticks after the final stage |
| Transmission.DefaultStageTicks | smoothtp/src/main/java/com/youssgm3o8/smoothtp/TransmissionProcess.java:45-50 | with the default durations the stages run at ticks 60, 120 and 180, and the release at 185 |
| Transmission.DefaultRaisedPoses | smoothtp/src/main/java/com/youssgm3o8/smoothtp/TransmissionProcess.java:51-70 | with the default offset, the camera passes 100 blocks above start and destination, looking down |
| Transmission.Scheduler.ScheduleDelayed | smoothtp/src/main/java/com/youssgm3o8/smoothtp/TransmissionProcess.java:259-269 | a delayed callback is appended after what was pending, due delay ticks from now |
| Transmission.Scheduler.ScheduleHolds | smoothtp/src/main/java/com/youssgm3o8/smoothtp/TransmissionProcess.java:136-141 | the hold loop appends exactly the refreshes Holds describes, after what was pending |
| Transmission.TransmissionProcess.constructor | smoothtp/src/main/java/com/youssgm3o8/smoothtp/TransmissionProcess.java:29-38 | the process keeps its player, destination and configuration; the proxy starts at the player's location; the title fade is used exactly when the loaded animation type is BOTH |
| Transmission.TransmissionProcess.Cleanup | smoothtp/src/main/java/com/youssgm3o8/smoothtp/TransmissionProcess.java:239-275 | on error the player is teleported to the destination unless that call throws; the camera detach makes the player visible to others unless the teleport or the detach throws; without a throw the proxy is removed, with its two packets unless it already was, the release scheduled 5 ticks later; after a throw the player is released at once, and the proxy keeps its removed flag and its current move task; unless the fallback teleport throws, the animation task is cancelled and forgotten even if a later step throws; if it throws, the animation task stays current and no task's cancelled flag changes; no task's countdown changes; the trace holds exactly these events |
| Transmission.TransmissionProcess.Dismantle | smoothtp/src/main/java/com/youssgm3o8/smoothtp/TransmissionProcess.java:248-274 | the animation task is cancelled and forgotten first, so also when the detach or the removal then throws, and no task's countdown changes; the player is made visible unless the detach throws, and the proxy removed with the release scheduled unless the detach or the removal throws; after a throw the player is released at once, and the proxy keeps its removed flag and its current move task |
| Transmission.TransmissionProcess.CancelAnimation | smoothtp/src/main/java/com/youssgm3o8/smoothtp/TransmissionProcess.java:249-252 | the animation task, if any, is cancelled and forgotten; no other task's cancelled flag and no task's countdown changes |
| Transmission.TransmissionProcess.Cues | smoothtp/src/main/java/com/youssgm3o8/smoothtp/TransmissionProcess.java:78-86 | the sound is among the cues exactly when sound is on, the title exactly when the title fade is used, and no cue is a real teleport |
| Transmission.TransmissionProcess.PlayCues | smoothtp/src/main/java/com/youssgm3o8/smoothtp/TransmissionProcess.java:179-187 | the cues are appended to the trace |
| Transmission.TransmissionProcess.MoveAndHold | smoothtp/src/main/java/com/youssgm3o8/smoothtp/TransmissionProcess.java:133-144 | a fresh move task becomes the animation task and every earlier task is cancelled; the hold refreshes and then the next stage are scheduled |
| Transmission.TransmissionProcess.SnapAndMove | smoothtp/src/main/java/com/youssgm3o8/smoothtp/TransmissionProcess.java:151-160 | without a throw, the camera snaps to the given pose and starts its move with its hold; a throw in either call leads to cleanup on error |
| Transmission.TransmissionProcess.RunAnimationSequence | smoothtp/src/main/java/com/youssgm3o8/smoothtp/TransmissionProcess.java:127-233 | without a throw the rise, its hold and stage 2 are scheduled; a throw in the move leads to cleanup on error |
| Transmission.TransmissionProcess.Start | smoothtp/src/main/java/com/youssgm3o8/smoothtp/TransmissionProcess.java:43-108 | a throw in the configuration reads escapes and changes nothing; otherwise the raised poses are set; a throw in spawn, attach or the rise leads to cleanup on error; without one the proxy is spawned and attached, the cues play, the rise starts and stage 1's schedule is queued |
| Transmission.TransmissionProcess.Launch | smoothtp/src/main/java/com/youssgm3o8/smoothtp/TransmissionProcess.java:75-102 | the view moves to the proxy and the player is hidden; the departure cues play and the rise starts |
| Transmission.TransmissionProcess.Stage2Run | smoothtp/src/main/java/com/youssgm3o8/smoothtp/TransmissionProcess.java:144-229 | the camera snaps to the raised start and flies to the raised destination, with the fade-out hold and stage 3 scheduled; a throw leads to cleanup on error |
| Transmission.TransmissionProcess.Stage3Run | smoothtp/src/main/java/com/youssgm3o8/smoothtp/TransmissionProcess.java:163-224 | resistance is applied and the player is really teleported to the destination; the camera descends with its hold and the final stage is scheduled; the log of real teleports holds the destination once if the call reached the teleport, plus once more from cleanup after any throw, unless cleanup's own teleport throws |
| Transmission.TransmissionProcess.Brace | smoothtp/src/main/java/com/youssgm3o8/smoothtp/TransmissionProcess.java:169-203 | the resistance effect is applied before the real teleport; an exception right after it cleans up with the destination teleport from cleanup only, otherwise the landing follows in full |
| Transmission.TransmissionProcess.Land | smoothtp/src/main/java/com/youssgm3o8/smoothtp/TransmissionProcess.java:177-203 | the player is teleported to the destination, the arrival cues play and the camera descends from above it |
| Transmission.TransmissionProcess.FinalRun | smoothtp/src/main/java/com/youssgm3o8/smoothtp/TransmissionProcess.java:206-219 | the final stage runs cleanup without error: no teleport, the animation task cancelled and forgotten, the player made visible again and the proxy removed, unless cleanup throws, in which case the proxy keeps its removed flag and its current move task |
| Transmission.TransmissionProcess.RefreshRun | smoothtp/src/main/java/com/youssgm3o8/smoothtp/TransmissionProcess.java:138-140 | a hold refresh puts the view at its target, unless the proxy is removed |
| Transmission.TransmissionProcess.ReleaseRun | smoothtp/src/main/java/com/youssgm3o8/smoothtp/TransmissionProcess.java:259-269 | the delayed second removal sends nothing after a successful first one, and the player is released |
| Transmission.RunStages | smoothtp/src/main/java/com/youssgm3o8/smoothtp/TransmissionProcess.java:113-229 | the three stages, each run at its due tick, queue their three schedules in order and teleport the player once, to the destination |
| Transmission.RunWithoutFaults | smoothtp/src/main/java/com/youssgm3o8/smoothtp/TransmissionProcess.java:43-275 | a fault-free sequence schedules exactly the full plan and teleports the player exactly once, to the destination; its last packets make the player visible again and remove the proxy, and the player is released |
| HostApi.Host.TeleportPlayer | smoothtp/src/main/java/com/youssgm3o8/smoothtp/TransmissionProcess.java:177 | a real teleport appends the teleport to the trace and the destination to the log of real teleports |
| Intake.OnPlayerTeleport | smoothtp/src/main/java/com/youssgm3o8/smoothtp/Main.java:96-137 | ignored requests change nothing; a cross-world request is teleported at once and not cancelled; a same-world request is cancelled and animated from its own pose; a throw while starting releases the player and teleports it directly |

## Left out

- Partial effects of a call that throws are not modelled: a throwing call has
  no effect at all. Java's `remove()` sets `removed` and cancels the current
  move task (VirtualEntity.java:395-401) before the two sends that may throw,
  so a remove that throws there leaves the proxy marked removed; in the model
  the proxy stays live. The proxy is abandoned after such a throw either way.
- Packet layouts are not modelled. This covers entity metadata flags, effect
  amplifiers and durations, and packet modes. An event carries only the id
  and the pose it is sent with.
- The single-precision casts of progress and packet coordinates are not
  modelled, and neither is `Math.pow`. Poses and progress are exact reals.
- `easeInOutQuad` is not modelled, because nothing calls it.
- `broadcastToOthers` is one `Visibility` event. Who else is online is not
  modelled.
- `playTeleportSound` is one `Sound` event at the pose, and `sendTitle` is one
  `Title` event. The title's fade duration, read raw from `title.fade-duration`
  without validation, is not carried.
- The Nukkit scheduler is not modelled. The thread that runs callbacks, the order of callbacks due on
  the same tick, and the interleaving of move runs and hold refreshes with the
  stages are absent. `RunStages` and `RunWithoutFaults` run only the stage
  callbacks, and `RunMove` runs one move on its own.
- Configuration I/O is not modelled. The `gta.*` durations and the up offset
  are parameters of the process, and reading them is fault 0 of `Start`.
- Logging, the debug flag's messages, the final stage's `teleport-message`
  chat message and `sendMessage` are not modelled.
- Transmission.TransmissionProcess.FinalRun: the final callback
  (TransmissionProcess.java:205-218) has no try/catch. If reading
  `teleport-message` or `sendMessage` throws, `cleanup(null)` never runs. The
  player is then not released, the proxy is not removed and the player stays
  hidden. The model has no fault before the cleanup call and does not capture
  this outcome.
- Transmission.TransmissionProcess.Stage2Run: on a throw path, the stage
  methods state the teleport log and `CleanedUp`, but not the packets
  cleanup sends. `Cleanup` states those packets itself, including
  `Visibility(playerId, true)` unless its first call or the detach throws.
- `startFadeOut`, `startFadeIn` and the `teleportTasks` map are not modelled.
  The two fades are private and never called. The map is never filled, so
  `OnDisable` has nothing to cancel in it.
- `onEnable` and the plugin start-up messages are not modelled.
- PluginMain.ToUpper: only ASCII letters are upper-cased. Java's locale and
  non-ASCII case mapping are not modelled.
- The server's own handling of the teleport event is outside the listener.
  This covers the second real teleport it makes after an uncancelled
  cross-world event, and the listener being re-entered by the plugin's own
  `player.teleport`. While the player is processing, such a re-entry is
  ignored. This holds for the sequence's stage 3 teleport and for cleanup's
  fallback teleport. The catch path of `onPlayerTeleport` (Main.java:131-136)
  releases the player before its direct teleport, so that re-entry is not
  ignored. A same-world request is then cancelled and animated again
  (`DecisionOutcomes`), and a cross-world one is teleported again. The
  re-entry itself is not modelled: `OnPlayerTeleport` records one
  `RealTeleport` on that path.
- Transmission.RunWithoutFaults: the durations are unbounded integers. Java
  adds them as 32-bit `int`s (TransmissionProcess.java:140, 159, 202, 219,
  224, 229), so sums beyond 2^31 - 1 wrap to negative delays. The model's due
  ticks are the unwrapped sums, so it does not capture durations that large.
- Camera.VirtualEntity.Tick: the exception a move run catches and turns into
  a cancel is not modelled.
- Transmission.TransmissionProcess.RefreshRun: exceptions in hold refreshes and in the release
  callback are not modelled.
- `scheduleDelayedTask` and the sound and title sends are assumed not to throw.
- Transmission.TransmissionProcess.Start: the Java constructor calls `start()` itself. The model
  splits them, and `Start` requires the state the constructor leaves behind.
- Transmission.TransmissionProcess.Stage2Run: requires the proxy not to be removed. Only cleanup
  removes it, and cleanup schedules no later stage, so every reachable stage
  call meets this.
- Transmission.TransmissionProcess.Stage3Run: requires the proxy not to be removed, for the same
  reason as Stage2Run.
- Intake.OnPlayerTeleport: covers faults in the listener's own teleport and in the first stage
  only. Later stages are faulted in their own methods.
- A pose's level (world) is not part of `Pose`. Cross-world is decided by the
  request's level names.

## Findings

| source | as written | input that shows it | evidently intended | confidence | as-written member | corrected member |
|---|---|---|---|---|---|---|
| smoothtp/src/main/java/com/youssgm3o8/smoothtp/TransmissionProcess.java:53 | the title fade is used when the raw configured animation type contains "BOTH", ignoring the type that loadConfig validated | animation-type "both" is loaded as BOTH but gets no title fade; "BOTH " falls back to GTA but gets one | use the title fade exactly when the validated animation type is BOTH | not executed | PluginMain.UsesTitleAsWrittenDisagrees | PluginMain.UsesTitleExactlyBoth |
