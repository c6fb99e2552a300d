# Inactivity shutdown, modelled in Dafny

This project models the Bukkit plugin `Inactivityshutdown`. The plugin watches
players leave and join a game server. When the last player leaves, it starts an
idle timer. A join before the timer fires cancels the timer. When the timer
fires with nobody online, the plugin saves every world and the players, stops
the server's EC2 instance and shuts the server down.

The model has four modules:

- `Timing`: Java `int` arithmetic. It covers the clamping of the configured
  timeout and the millisecond delay handed to `java.util.Timer`.
- `ShutdownTrace`: the effects of the shutdown task as a trace of `Action`s
  (`SaveWorld(i)`, `SavePlayers`, `StopInstance`, `ServerShutdown`). It proves
  their order and that each happens exactly once per run.
- `Inactivity`: the plugin's state as a value, with one transition function
  per host callback. `Inv` is the invariant they all keep. The scenario lemmas
  are stated over these functions.
- `Plugin`: the class `InactivityShutdown`, whose fields the callbacks update
  in place. Each method is proved to take its state (`Snapshot()`) to the value
  the matching `Inactivity` function gives. So every property proved about
  those functions holds of the object.

The host supplies the online player count and the number of worlds as
parameters. A timer's expiry is an explicit call. `TimerFires` may be made only
while the referenced timer has a pending task. `OrphanTimerFires` may be made
only while a task orphaned by re-arming is still pending. The callbacks'
preconditions are:

- every method requires the invariant `Valid()`;
- `OnEnable` requires that the plugin is not enabled and that the configured
  timeout is a Java `int`;
- `OnPlayerQuit` requires the quit listener to be registered, and
  `OnPlayerJoin` the join listener, because the host delivers events only to
  registered listeners;
- `TimerFires` requires a pending task on the referenced timer, and
  `OrphanTimerFires` an orphaned pending task.

Facts about the code that the model keeps visible:

- Arming is not guarded. `startIdleTimer` overwrites `idleTimer` at line 151
  without cancelling the old timer, so a task still pending there stays
  scheduled and no join can cancel it (`RearmOrphansPendingTask`).
- The join listener is registered only in the branch that also creates a
  timer, so "join listener registered ⇒ timer exists" is an invariant and the
  cancel at line 121 never meets null. The converse does not hold: after a
  join, the cancelled timer stays in the field with no join listener
  (`PlayerJoin`). Nor does a registered join listener mean a task is pending:
  when a timer fires with a player counted online, the join listener stays
  registered beside the spent timer (`Fire`).
- The delay at line 158 is a 32-bit `int` product. When it wraps to a negative
  number, `schedule` throws after the join listener is registered and the new
  timer installed. No task is then pending for that idle period
  (`RejectedScheduleArmsNothing`, `OverflowTimeoutNeverArms`). See
  "## Findings".
- With timeout 0, `startIdleTimer` runs the expiry check at once, and that
  check needs a count of at most 0. A quit delivered while the leaving player
  is still counted (count 1) therefore never shuts the server down
  (`ZeroTimeoutLastQuitKeepsRunning`). The server shuts down at once only when
  the count is at most 0: on enable (`ZeroTimeoutEmptyServerStopsAtOnce`) or on
  a quit delivered with a count of 0 or less (`PlayerQuit`).
- The shutdown task has no error handling. The model records its effects in
  order and does not model failures.

## Model

| member | source | states |
|---|---|---|
| `Timing.Wrap32` | src/main/java/ares06/inactivityshutdown/Inactivityshutdown.java:158 | Java `int` arithmetic: the result is in the signed 32-bit range, congruent to the exact value modulo 2^32, and equal to it when it fits |
| `Timing.ClampTimeout` | src/main/java/ares06/inactivityshutdown/Inactivityshutdown.java:38-43 | the stored timeout is the least non-negative value at least the configured one: 0 for a negative value, the value itself otherwise; it stays a Java `int` |
| `Timing.DelayMs` | src/main/java/ares06/inactivityshutdown/Inactivityshutdown.java:158 | the intended delay: a non-negative `long` that is a whole number of seconds, equal to the timeout |
| `Timing.AsWrittenDelay` | src/main/java/ares06/inactivityshutdown/Inactivityshutdown.java:158 | the delay as written is the wrapped 32-bit product, always a Java `int` |
| `Timing.AsWrittenDelayExactIff` | src/main/java/ares06/inactivityshutdown/Inactivityshutdown.java:158 | the 32-bit product equals the intended delay if and only if the timeout is at most 2147483 seconds |
| `Timing.OverflowToNegativeDelay` | src/main/java/ares06/inactivityshutdown/Inactivityshutdown.java:158 | a timeout of 2147484 gives the delay -2147483296, which `Timer.schedule` rejects |
| `Timing.OverflowToShortDelay` | src/main/java/ares06/inactivityshutdown/Inactivityshutdown.java:158 | a timeout of 4294968 seconds gives a delay of 704 ms instead of 4294968000 ms |
| `ShutdownTrace.SaveWorlds` | src/main/java/ares06/inactivityshutdown/Inactivityshutdown.java:78-81 | the world loop saves world i at position i, one save per world |
| `ShutdownTrace.SaveWorldsOnce` | src/main/java/ares06/inactivityshutdown/Inactivityshutdown.java:78-81 | each of the n worlds is saved exactly once, and no other world is saved |
| `ShutdownTrace.SaveWorldsOnlySaves` | src/main/java/ares06/inactivityshutdown/Inactivityshutdown.java:78-81 | the world loop performs no action other than world saves |
| `ShutdownTrace.Sequence` | src/main/java/ares06/inactivityshutdown/Inactivityshutdown.java:77-101 | one run of the task: world i saved at position i, then the player save, the stop request and the shutdown, in that order |
| `ShutdownTrace.SequenceCounts` | src/main/java/ares06/inactivityshutdown/Inactivityshutdown.java:77-101 | in one run each world of the server is saved once, no other world is saved, and the player save, the stop request and the shutdown occur once each |
| `ShutdownTrace.SequenceOrdered` | src/main/java/ares06/inactivityshutdown/Inactivityshutdown.java:75-102 | one run saves every world once, then saves players, stops the instance and shuts down, each exactly once; every persistence action precedes the stop request, and the stop request precedes the shutdown |
| `ShutdownTrace.AppendRun` | src/main/java/ares06/inactivityshutdown/Inactivityshutdown.java:70-103 | appending a run keeps the local shape of `WellFormed`: the trace ends with a shutdown, every player save is followed at once by a stop request, and every stop request comes right after a player save and right before a shutdown |
| `ShutdownTrace.AppendRunKeepsRuns` | src/main/java/ares06/inactivityshutdown/Inactivityshutdown.java:70-103 | appending a run to a concatenation of whole runs gives a concatenation of whole runs |
| `ShutdownTrace.RunsWellFormed` | src/main/java/ares06/inactivityshutdown/Inactivityshutdown.java:70-103 | any concatenation of whole runs has the local shape of `WellFormed` |
| `Inactivity.LastPlayerOnline` | src/main/java/ares06/inactivityshutdown/Inactivityshutdown.java:124-130 | true exactly when the count shows one player (the leaving one) or nobody |
| `Inactivity.NoPlayerOnline` | src/main/java/ares06/inactivityshutdown/Inactivityshutdown.java:132-138 | true exactly when the count shows nobody; it implies `LastPlayerOnline` |
| `Inactivity.InitialInv` | src/main/java/ares06/inactivityshutdown/Inactivityshutdown.java:18-23 | a new plugin object satisfies the invariant and nothing can reach it |
| `Inactivity.Cancel` | src/main/java/ares06/inactivityshutdown/Inactivityshutdown.java:121 | `Timer.cancel()` leaves no task to run and keeps the timer object |
| `Inactivity.TimerExpired` | src/main/java/ares06/inactivityshutdown/Inactivityshutdown.java:70-104 | the trace changes if and only if no player is online; then all listeners are unregistered and exactly one run is appended; with a player online nothing changes; timers are not touched; the invariant is kept |
| `Inactivity.StartIdleTimer` | src/main/java/ares06/inactivityshutdown/Inactivityshutdown.java:140-160 | with timeout 0: no join listener and no new timer; with nobody online exactly one run is appended and the quit listener is removed, and with somebody online nothing changes. With timeout above 0: the join listener is registered and a new timer replaces the field, with the 32-bit product as its delay; a task is armed if and only if that delay is not negative, adding exactly one pending task; up to 2147483 s the delay is the intended one. The invariant is kept |
| `Inactivity.PlayerQuit` | src/main/java/ares06/inactivityshutdown/Inactivityshutdown.java:106-130 | above a count of 1 nothing changes. With timeout 0 a run is appended if and only if the count is at most 0. With a positive timeout the trace, timeout, `enabled` and the quit listener stay; a count of at most 1 registers the join listener and installs a timer with the 32-bit delay, armed if and only if that delay is not negative; for such a delay a task is added if and only if the count is at most 1. The invariant is kept |
| `Inactivity.PlayerJoin` | src/main/java/ares06/inactivityshutdown/Inactivityshutdown.java:113-122 | the join listener is unregistered and the timer, which exists by the invariant, is cancelled; only orphaned tasks stay pending; the quit listener and trace are untouched |
| `Inactivity.Disable` | src/main/java/ares06/inactivityshutdown/Inactivityshutdown.java:61-68 | no listener stays registered, the referenced timer is cancelled if it exists, and a missing timer is left missing; the trace is untouched |
| `Inactivity.Enable` | src/main/java/ares06/inactivityshutdown/Inactivityshutdown.java:25-58 | with `Enabled` false nothing is registered, armed or emitted. Otherwise the timeout is the clamped one, and: with somebody online the quit listener stays registered, with no join listener, no new task and no effect; on an empty server with a timeout of 0 or less exactly one run is appended and neither listener stays registered; on an empty server with a positive timeout the quit and join listeners are registered, no effect happens, and a task is armed if and only if the 32-bit delay is not negative |
| `Inactivity.Fire` | src/main/java/ares06/inactivityshutdown/Inactivityshutdown.java:152-157 | the referenced timer is marked spent, leaving one fewer pending task and the orphans as they were. With nobody online exactly one run is appended and both listeners are removed; with somebody online the trace and both registrations stay as they were |
| `Inactivity.OrphanFire` | src/main/java/ares06/inactivityshutdown/Inactivityshutdown.java:151-157 | an orphaned task runs the expiry check all the same: one orphan fewer, the referenced timer untouched. With nobody online exactly one run is appended and both listeners are removed; with somebody online the trace and both registrations stay as they were |
| `Inactivity.DisabledConfigInert` | src/main/java/ares06/inactivityshutdown/Inactivityshutdown.java:30-35 | with `Enabled` false a new plugin stays exactly in its initial state |
| `Inactivity.NegativeTimeoutActsAsZero` | src/main/java/ares06/inactivityshutdown/Inactivityshutdown.java:38-43 | enabling with a negative timeout gives the same state as enabling with timeout 0 |
| `Inactivity.ZeroTimeoutEmptyServerStopsAtOnce` | src/main/java/ares06/inactivityshutdown/Inactivityshutdown.java:55-57 | with timeout 0 on an empty server, enabling runs the shutdown at once, with no join listener and no timer |
| `Inactivity.ZeroTimeoutLastQuitKeepsRunning` | src/main/java/ares06/inactivityshutdown/Inactivityshutdown.java:106-143 | with timeout 0, a quit with the leaving player still counted changes nothing |
| `Inactivity.JoinBeforeExpiryCancels` | src/main/java/ares06/inactivityshutdown/Inactivityshutdown.java:106-122 | from any state with nothing pending and a non-negative 32-bit delay, the last player leaves and then a player joins: one task was armed, none is left pending, and the trace is unchanged |
| `Inactivity.ExpiryShutsDownOnce` | src/main/java/ares06/inactivityshutdown/Inactivityshutdown.java:70-160 | from any state with nothing pending and a non-negative 32-bit delay (wrapped or not), the last player leaves and the timer fires with nobody online: exactly one run is appended and the plugin is quiescent |
| `Inactivity.QuiescentStaysQuiet` | src/main/java/ares06/inactivityshutdown/Inactivityshutdown.java:61-68 | disabling a quiescent plugin keeps it quiescent and adds no effect |
| `Inactivity.RejectedScheduleArmsNothing` | src/main/java/ares06/inactivityshutdown/Inactivityshutdown.java:146-158 | with a negative 32-bit delay, the last player leaving registers the join listener and installs a timer without a task: nothing is pending and no effect happens |
| `Inactivity.OverflowTimeoutNeverArms` | src/main/java/ares06/inactivityshutdown/Inactivityshutdown.java:38-58 | enabled with timeout 3000000 on an empty server, the plugin registers the join listener but arms no task |
| `Inactivity.RearmOrphansPendingTask` | src/main/java/ares06/inactivityshutdown/Inactivityshutdown.java:146-158 | re-arming while a task is pending orphans it: two tasks pending, and a join cancels only the newer one |
| `Plugin.InactivityShutdown.constructor` | src/main/java/ares06/inactivityshutdown/Inactivityshutdown.java:18-23 | fields start null or unset: the initial state |
| `Plugin.InactivityShutdown.OnEnable` | src/main/java/ares06/inactivityshutdown/Inactivityshutdown.java:25-58 | the new fields are exactly `Enable` of the old ones, and the invariant holds |
| `Plugin.InactivityShutdown.OnDisable` | src/main/java/ares06/inactivityshutdown/Inactivityshutdown.java:61-68 | the new fields are exactly `Disable` of the old ones, and the invariant holds |
| `Plugin.InactivityShutdown.OnTimerExpired` | src/main/java/ares06/inactivityshutdown/Inactivityshutdown.java:70-104 | the new fields are exactly `TimerExpired` of the old ones, and the invariant holds |
| `Plugin.InactivityShutdown.RunShutdownTask` | src/main/java/ares06/inactivityshutdown/Inactivityshutdown.java:75-102 | the loop over worlds and the steps after it append exactly one run of the shutdown sequence |
| `Plugin.InactivityShutdown.OnPlayerQuit` | src/main/java/ares06/inactivityshutdown/Inactivityshutdown.java:106-111 | the new fields are exactly `PlayerQuit` of the old ones, and the invariant holds |
| `Plugin.InactivityShutdown.OnPlayerJoin` | src/main/java/ares06/inactivityshutdown/Inactivityshutdown.java:113-122 | the new fields are exactly `PlayerJoin` of the old ones; the cancel never meets a null timer |
| `Plugin.InactivityShutdown.StartIdleTimer` | src/main/java/ares06/inactivityshutdown/Inactivityshutdown.java:140-160 | the new fields are exactly `Inactivity.StartIdleTimer` of the old ones, including the orphaned task and the rejected schedule |
| `Plugin.InactivityShutdown.TimerFires` | src/main/java/ares06/inactivityshutdown/Inactivityshutdown.java:152-157 | the new fields are exactly `Fire` of the old ones |
| `Plugin.InactivityShutdown.OrphanTimerFires` | src/main/java/ares06/inactivityshutdown/Inactivityshutdown.java:151-157 | the new fields are exactly `OrphanFire` of the old ones |
| `Plugin.JoinCancelsScenario` | src/main/java/ares06/inactivityshutdown/Inactivityshutdown.java:106-122 | timeout 30 s, last player leaves, another joins: no effect and no pending task |
| `Plugin.ExpiryScenario` | src/main/java/ares06/inactivityshutdown/Inactivityshutdown.java:70-160 | timeout 5 s, last player leaves, nobody joins: exactly one run of the shutdown sequence, and nothing can reach the plugin afterwards |

## Findings

| source | as written | input that shows it | evidently intended | confidence | as-written member | corrected member |
|---|---|---|---|---|---|---|
| src/main/java/ares06/inactivityshutdown/Inactivityshutdown.java:158 | `inactivityTimeout*1000` is a 32-bit `int` product and wraps for timeouts above 2147483 seconds | timeout 2147484 gives -2147483296 ms, and `Timer.schedule` throws; timeout 4294968 gives 704 ms | a delay of the timeout in milliseconds, computed as a `long` | high for the arithmetic; not executed | `Timing.AsWrittenDelay` (`Timing.OverflowToNegativeDelay`, `Timing.OverflowToShortDelay`, `Inactivity.OverflowTimeoutNeverArms`) | `Timing.DelayMs` (`Timing.AsWrittenDelayExactIff`) |

## Left out

- The `IllegalArgumentException` that `schedule` throws on a negative delay is not returned to the host, which logs it. Its effect on the state is modelled; nothing runs after it in any caller.
- Configuration loading, `saveDefaultConfig`, `getConfig`, and listener objects and their registration calls are not modelled as such. Each registration is a boolean. Registering the same listener twice counts once.
- `disablePlugin` is modelled as the host running `onDisable`. Whether Bukkit refuses `runTask` from a disabled plugin is not modelled. An orphaned task that fires after `onDisable` still appends a run.
- The shutdown task that `runTask` schedules runs at once, as part of `onTimerExpired`.
- `java.util.Timer` threads, elapsed time and races between the timer thread and the server thread are concurrency and are not modelled. Expiry is an explicit call.
- A timer object is a value held by one field. Nothing else references it, so aliasing does not arise.
- The AWS client construction and `stopInstances` call (lines 85-98) are one `StopInstance` action. Network and authentication failures are not modelled.
- `world.save()` and `savePlayers()` are trace actions. World names and failures of a save are not modelled.
- Logging is left out because it carries no behaviour.
- The online count and world count come from the server. They are parameters.
