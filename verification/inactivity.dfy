/** The inactivity state machine of Inactivityshutdown.java as values: the
    plugin's fields, the listener registrations and the trace of external
    effects, and one transition function per host callback. The class in
    module Plugin is proved to follow these functions step by step. */
module Inactivity {
  import opened Timing
  import opened ShutdownTrace

  datatype Option<T> = None | Some(value: T)

  /** What became of the one task a `java.util.Timer` was given. `Rejected`: the
      timer object was created but `schedule` refused its negative delay with an
      `IllegalArgumentException`, so it holds no task. */
  datatype TimerStatus = Pending | Fired | Cancelled | Rejected

  /** A timer object with its task: the delay passed to `schedule`. */
  datatype Timer = Timer(delayMs: int, status: TimerStatus)

  /** The plugin's state. `enabled` is the host's view (the plugin was enabled
      with `Enabled` set and not disabled since); `idleTimer` is the field of the
      same name (`None` for null); `orphans` counts tasks still scheduled on timer
      objects that the field no longer references; `trace` records the shutdown
      task's effects. */
  datatype State = State(
    enabled: bool,
    timeout: int,
    quitRegistered: bool,
    joinRegistered: bool,
    idleTimer: Option<Timer>,
    orphans: nat,
    trace: seq<Action>)

  /** A freshly constructed plugin: nothing registered, no timer. */
  const Initial: State := State(false, 0, false, false, None, 0, [])

  /** `lastPlayerOnline`: the online count, which still includes a leaving
      player, shows that player alone, or nobody. */
  function LastPlayerOnline(online: int): (last: bool)
    ensures last <==> online == 1 || online < 1
  {
    online <= 1
  }

  /** `noPlayerOnline`: the online count shows nobody; this is the stricter of
      the two tests. */
  function NoPlayerOnline(online: int): (none: bool)
    ensures none <==> online < 1
    ensures none ==> LastPlayerOnline(online)
  {
    online <= 0
  }

  /** The timer the field references still has its task to run. */
  predicate Armed(s: State) {
    s.idleTimer.Some? && s.idleTimer.value.status == Pending
  }

  /** Every task still scheduled, referenced or orphaned. */
  function PendingTasks(s: State): nat {
    s.orphans + if Armed(s) then 1 else 0
  }

  /** No host event and no timer can reach the plugin any more. */
  predicate Quiescent(s: State) {
    !s.quitRegistered && !s.joinRegistered && PendingTasks(s) == 0
  }

  /** The invariant every callback keeps. The join listener is registered only
      together with a timer object (so cancelling it on a join never meets null)
      and only when the timeout is positive; nothing is registered while the
      plugin is disabled; a pending timer belongs to an enabled plugin and was
      scheduled with the current timeout's 32-bit millisecond count, which is
      not negative; the trace is a concatenation of whole runs of the shutdown
      task. */
  ghost predicate Inv(s: State) {
    && IsInt32(s.timeout) && s.timeout >= 0
    && (!s.enabled ==> !s.quitRegistered && !s.joinRegistered)
    && (s.joinRegistered ==> s.quitRegistered && s.idleTimer.Some? && s.timeout > 0)
    && (Armed(s) ==> s.enabled && s.timeout > 0 && s.idleTimer.value.delayMs == AsWrittenDelay(s.timeout) >= 0)
    && MadeOfRuns(s.trace)
  }

  /** A new plugin object satisfies the invariant, and nothing can reach it. */
  lemma InitialInv()
    ensures Inv(Initial) && Quiescent(Initial)
  {
  }

  /** Java's `Timer.cancel()`: no task of the timer runs afterwards. */
  function Cancel(t: Option<Timer>): (r: Option<Timer>)
    ensures r.None? <==> t.None?
    ensures r.Some? ==> r.value.status == Cancelled && r.value.delayMs == t.value.delayMs
  {
    match t
    case None => None
    case Some(timer) => Some(timer.(status := Cancelled))
  }

  /** `onTimerExpired`: with nobody online, every listener is unregistered and one
      run of the shutdown task is appended; with somebody online nothing changes.
      Timers are not touched either way. */
  function TimerExpired(s: State, online: int, worlds: nat): (r: State)
    requires Inv(s)
    ensures Inv(r)
    ensures r.trace != s.trace <==> NoPlayerOnline(online)
    ensures NoPlayerOnline(online) ==> r.trace == s.trace + Sequence(worlds) && !r.quitRegistered && !r.joinRegistered
    ensures !NoPlayerOnline(online) ==> r == s
    ensures r.idleTimer == s.idleTimer && r.orphans == s.orphans && r.enabled == s.enabled
  {
    if NoPlayerOnline(online) then
      AppendRunKeepsRuns(s.trace, worlds);
      s.(quitRegistered := false, joinRegistered := false, trace := s.trace + Sequence(worlds))
    else
      s
  }

  /** `startIdleTimer`. With timeout 0 no listener and no timer: the expiry check
      runs at once. Otherwise the join listener is registered and a new timer
      replaces the field; a task still pending on the replaced timer is not
      cancelled and becomes an orphan. The new timer gets one task whose delay is
      the 32-bit product `timeout*1000`; when that product is negative,
      `schedule` throws and the new timer holds no task. Nothing follows the
      schedule call in any caller, so the exception ends the callback with this
      state. Up to 2147483 seconds the delay is the intended one. */
  function StartIdleTimer(s: State, online: int, worlds: nat): (r: State)
    requires Inv(s) && s.quitRegistered
    ensures Inv(r)
    ensures r.enabled == s.enabled && r.timeout == s.timeout
    ensures s.timeout == 0 ==> !r.joinRegistered && r.idleTimer == s.idleTimer && r.orphans == s.orphans
    ensures s.timeout == 0 ==> (r.trace != s.trace <==> NoPlayerOnline(online))
    ensures s.timeout == 0 && NoPlayerOnline(online) ==> r.trace == s.trace + Sequence(worlds) && !r.quitRegistered
    ensures s.timeout == 0 && !NoPlayerOnline(online) ==> r == s
    ensures s.timeout > 0 ==> r.joinRegistered && r.quitRegistered && r.trace == s.trace
    ensures s.timeout > 0 ==> r.idleTimer.Some? && r.idleTimer.value.delayMs == AsWrittenDelay(s.timeout)
    ensures s.timeout > 0 ==> (Armed(r) <==> AsWrittenDelay(s.timeout) >= 0)
    ensures s.timeout > 0 ==> PendingTasks(r) == PendingTasks(s) + if AsWrittenDelay(s.timeout) >= 0 then 1 else 0
    ensures 0 < s.timeout <= MaxExactSeconds ==> Armed(r) && r.idleTimer.value.delayMs == DelayMs(s.timeout)
  {
    if s.timeout == 0 then
      TimerExpired(s, online, worlds)
    else
      var delay := AsWrittenDelay(s.timeout);
      AsWrittenDelayExactIff(s.timeout);
      s.(joinRegistered := true,
         idleTimer := Some(Timer(delay, if delay < 0 then Rejected else Pending)),
         orphans := PendingTasks(s))
  }

  /** `onPlayerQuit`: the idle timer is started exactly when the online count is
      at most one; otherwise nothing changes. With timeout 0 that means one run
      of the shutdown task exactly when the count is at most zero; with a
      positive timeout it means a new timer and no effect yet. */
  function PlayerQuit(s: State, online: int, worlds: nat): (r: State)
    requires Inv(s) && s.quitRegistered
    ensures Inv(r)
    ensures !LastPlayerOnline(online) ==> r == s
    ensures r.trace == s.trace || r.trace == s.trace + Sequence(worlds)
    ensures s.timeout == 0 ==> (r.trace != s.trace <==> NoPlayerOnline(online))
    ensures s.timeout > 0 ==> r.trace == s.trace && r.timeout == s.timeout && r.enabled == s.enabled && r.quitRegistered
    ensures s.timeout > 0 && LastPlayerOnline(online) ==>
      r.joinRegistered && r.idleTimer.Some? && r.idleTimer.value.delayMs == AsWrittenDelay(s.timeout)
      && (Armed(r) <==> AsWrittenDelay(s.timeout) >= 0)
    ensures s.timeout > 0 && AsWrittenDelay(s.timeout) >= 0 ==>
      (PendingTasks(r) == PendingTasks(s) + 1 <==> LastPlayerOnline(online))
  {
    if LastPlayerOnline(online) then StartIdleTimer(s, online, worlds) else s
  }

  /** `onPlayerJoin`: the join listener is unregistered and the timer cancelled.
      The timer exists because the join listener is registered (Inv). */
  function PlayerJoin(s: State): (r: State)
    requires Inv(s) && s.joinRegistered
    ensures Inv(r)
    ensures !r.joinRegistered && r.quitRegistered && !Armed(r)
    ensures r.idleTimer.Some? && r.idleTimer.value.status == Cancelled
    ensures PendingTasks(r) == s.orphans && r.trace == s.trace
  {
    s.(joinRegistered := false, idleTimer := Cancel(s.idleTimer))
  }

  /** `onDisable`: the timer is cancelled when there is one (a null field is left
      alone) and every listener is unregistered; the host then counts the plugin
      as disabled. */
  function Disable(s: State): (r: State)
    requires Inv(s)
    ensures Inv(r)
    ensures !r.enabled && !r.quitRegistered && !r.joinRegistered && !Armed(r)
    ensures r.idleTimer.None? <==> s.idleTimer.None?
    ensures PendingTasks(r) == s.orphans && r.trace == s.trace
  {
    s.(enabled := false, quitRegistered := false, joinRegistered := false, idleTimer := Cancel(s.idleTimer))
  }

  /** `onEnable`. With `Enabled` false the plugin disables itself (the host then
      runs `onDisable`), registering nothing. Otherwise the timeout is read and
      clamped, the quit listener registered, and the idle timer started when
      nobody is online. */
  function Enable(s: State, enabledCfg: bool, cfgTimeout: int, online: int, worlds: nat): (r: State)
    requires Inv(s) && !s.enabled && IsInt32(cfgTimeout)
    ensures Inv(r)
    ensures !enabledCfg ==> !r.enabled && !r.quitRegistered && !r.joinRegistered && PendingTasks(r) == PendingTasks(s) && r.trace == s.trace
    ensures enabledCfg ==> r.enabled && r.timeout == ClampTimeout(cfgTimeout)
    ensures enabledCfg && !NoPlayerOnline(online) ==> r.quitRegistered && !r.joinRegistered && PendingTasks(r) == PendingTasks(s) && r.trace == s.trace
    ensures enabledCfg && NoPlayerOnline(online) && cfgTimeout <= 0 ==>
      r.trace == s.trace + Sequence(worlds) && !r.quitRegistered && !r.joinRegistered
    ensures enabledCfg && NoPlayerOnline(online) && cfgTimeout > 0 ==>
      r.joinRegistered && r.trace == s.trace
      && (Armed(r) <==> AsWrittenDelay(cfgTimeout) >= 0)
      && PendingTasks(r) == PendingTasks(s) + if AsWrittenDelay(cfgTimeout) >= 0 then 1 else 0
  {
    if !enabledCfg then
      Disable(s)
    else
      var s1 := s.(enabled := true, timeout := ClampTimeout(cfgTimeout), quitRegistered := true);
      if NoPlayerOnline(online) then StartIdleTimer(s1, online, worlds) else s1
  }

  /** The referenced timer's task runs: it is spent, and `onTimerExpired` runs. */
  function Fire(s: State, online: int, worlds: nat): (r: State)
    requires Inv(s) && Armed(s)
    ensures Inv(r)
    ensures PendingTasks(r) == PendingTasks(s) - 1
    ensures r.idleTimer.Some? && r.idleTimer.value.status == Fired && r.orphans == s.orphans
    ensures r.trace != s.trace <==> NoPlayerOnline(online)
    ensures NoPlayerOnline(online) ==> r.trace == s.trace + Sequence(worlds) && !r.quitRegistered && !r.joinRegistered
    ensures !NoPlayerOnline(online) ==> r.trace == s.trace && r.quitRegistered == s.quitRegistered && r.joinRegistered == s.joinRegistered
  {
    TimerExpired(s.(idleTimer := Some(s.idleTimer.value.(status := Fired))), online, worlds)
  }

  /** An orphaned task runs: `onTimerExpired` runs all the same. */
  function OrphanFire(s: State, online: int, worlds: nat): (r: State)
    requires Inv(s) && s.orphans > 0
    ensures Inv(r)
    ensures PendingTasks(r) == PendingTasks(s) - 1
    ensures r.idleTimer == s.idleTimer && r.orphans == s.orphans - 1
    ensures r.trace != s.trace <==> NoPlayerOnline(online)
    ensures NoPlayerOnline(online) ==> r.trace == s.trace + Sequence(worlds) && !r.quitRegistered && !r.joinRegistered
    ensures !NoPlayerOnline(online) ==> r.trace == s.trace && r.quitRegistered == s.quitRegistered && r.joinRegistered == s.joinRegistered
  {
    TimerExpired(s.(orphans := s.orphans - 1), online, worlds)
  }

  /** With `Enabled` false a fresh plugin stays inert: nothing registered, no
      timer, no effect. */
  lemma DisabledConfigInert(cfgTimeout: int, online: int, worlds: nat)
    requires IsInt32(cfgTimeout)
    ensures Enable(Initial, false, cfgTimeout, online, worlds) == Initial
  {
  }

  /** A negative configured timeout behaves exactly like a timeout of 0. */
  lemma NegativeTimeoutActsAsZero(s: State, cfgTimeout: int, online: int, worlds: nat)
    requires Inv(s) && !s.enabled && IsInt32(cfgTimeout) && cfgTimeout < 0
    ensures Enable(s, true, cfgTimeout, online, worlds) == Enable(s, true, 0, online, worlds)
  {
  }

  /** Enabling with timeout 0 on an empty server runs the shutdown task at once,
      without registering the join listener or creating a timer. */
  lemma ZeroTimeoutEmptyServerStopsAtOnce(s: State, online: int, worlds: nat)
    requires Inv(s) && !s.enabled && NoPlayerOnline(online)
    ensures var r := Enable(s, true, 0, online, worlds);
      r.trace == s.trace + Sequence(worlds) && !r.quitRegistered && !r.joinRegistered
      && r.idleTimer == s.idleTimer && PendingTasks(r) == PendingTasks(s)
  {
  }

  /** With timeout 0, a quit seen while the leaving player is still counted
      (count 1) starts the expiry check at once, which finds a player online and
      does nothing: the server keeps running. */
  lemma ZeroTimeoutLastQuitKeepsRunning(s: State, worlds: nat)
    requires Inv(s) && s.quitRegistered && s.timeout == 0
    ensures PlayerQuit(s, 1, worlds) == s
  {
  }

  /** Last player leaves, the timer is armed; a player joins before it fires: the
      timer is cancelled, no task is left pending, and no shutdown happened. */
  lemma JoinBeforeExpiryCancels(s: State, online: int, worlds: nat)
    requires Inv(s) && s.quitRegistered && 0 < s.timeout && AsWrittenDelay(s.timeout) >= 0 && PendingTasks(s) == 0
    requires LastPlayerOnline(online)
    ensures var armed := PlayerQuit(s, online, worlds);
      && armed.joinRegistered && PendingTasks(armed) == 1
      && var joined := PlayerJoin(armed);
      && joined.trace == s.trace && PendingTasks(joined) == 0
      && joined.quitRegistered && !joined.joinRegistered
  {
  }

  /** Last player leaves, the timer fires with nobody online: one run of the
      shutdown task is appended and the plugin is quiescent, so no later join,
      quit or timer can run it again. */
  lemma ExpiryShutsDownOnce(s: State, online: int, worlds: nat)
    requires Inv(s) && s.quitRegistered && 0 < s.timeout && AsWrittenDelay(s.timeout) >= 0 && PendingTasks(s) == 0
    requires LastPlayerOnline(online)
    ensures var armed := PlayerQuit(s, online, worlds);
      && Armed(armed)
      && var fired := Fire(armed, 0, worlds);
      && fired.trace == s.trace + Sequence(worlds) && Quiescent(fired)
  {
  }

  /** A quiescent plugin can only be disabled, which adds no effect. */
  lemma QuiescentStaysQuiet(s: State)
    requires Inv(s) && Quiescent(s)
    ensures Quiescent(Disable(s)) && Disable(s).trace == s.trace
  {
  }

  /** The source does not guard against arming twice: a quit with a count of at
      most one while the timer is pending leaves two tasks scheduled, and only
      the newer one can be cancelled by a join. */
  lemma RearmOrphansPendingTask(s: State, online: int, worlds: nat)
    requires Inv(s) && s.quitRegistered && Armed(s) && LastPlayerOnline(online)
    ensures var r := PlayerQuit(s, online, worlds);
      r.orphans == s.orphans + 1 && PendingTasks(r) == PendingTasks(s) + 1
      && PendingTasks(PlayerJoin(r)) == s.orphans + 1
  {
  }

  /** A timeout whose 32-bit millisecond count is negative: the last player
      leaves, the join listener is registered and a new timer installed, but the
      schedule is rejected, so no task is pending for this idle period and no
      shutdown can follow from it. */
  lemma RejectedScheduleArmsNothing(s: State, online: int, worlds: nat)
    requires Inv(s) && s.quitRegistered && s.timeout > 0 && AsWrittenDelay(s.timeout) < 0
    requires LastPlayerOnline(online) && PendingTasks(s) == 0
    ensures var r := PlayerQuit(s, online, worlds);
      && r.joinRegistered && r.idleTimer.Some? && r.idleTimer.value.status == Rejected
      && PendingTasks(r) == 0 && r.trace == s.trace
  {
  }

  /** Enabled with a timeout of 3000000 seconds on an empty server, the plugin
      registers the join listener but never arms a task. */
  lemma OverflowTimeoutNeverArms(worlds: nat)
    ensures var r := Enable(Initial, true, 3000000, 0, worlds);
      r.joinRegistered && !Armed(r) && PendingTasks(r) == 0 && r.trace == []
  {
    assert AsWrittenDelay(3000000) == -1294967296;
  }
}
