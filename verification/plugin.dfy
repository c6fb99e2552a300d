/** The plugin object of Inactivityshutdown.java. Each host callback is a method
    that updates the fields in place; each is proved to take the state to the
    value the matching function of module Inactivity gives, so that every
    property proved there holds of the object. The online count and the number
    of worlds, which the source asks the server for, are parameters. */
module Plugin {
  import opened Timing
  import opened ShutdownTrace
  import opened Inactivity

  class InactivityShutdown {
    var enabled: bool
    var inactivityTimeout: int
    var quitRegistered: bool
    var joinRegistered: bool
    var idleTimer: Option<Timer>
    var orphans: nat
    var trace: seq<Action>

    /** The fields as a value of the state machine. */
    function Snapshot(): State
      reads this
    {
      State(enabled, inactivityTimeout, quitRegistered, joinRegistered, idleTimer, orphans, trace)
    }

    ghost predicate Valid()
      reads this
    {
      Inv(Snapshot())
    }

    constructor ()
      ensures Valid() && Snapshot() == Initial
    {
      enabled, inactivityTimeout := false, 0;
      quitRegistered, joinRegistered := false, false;
      idleTimer, orphans, trace := None, 0, [];
    }

    /** `onEnable`, with the two configuration values and the online count. */
    method OnEnable(enabledCfg: bool, cfgTimeout: int, online: int, worlds: nat)
      requires Valid() && !enabled && IsInt32(cfgTimeout)
      modifies this
      ensures Valid()
      ensures Snapshot() == Enable(old(Snapshot()), enabledCfg, cfgTimeout, online, worlds)
    {
      if !enabledCfg {
        // disablePlugin(this): the host runs onDisable
        OnDisable();
        return;
      }
      enabled := true;
      inactivityTimeout := cfgTimeout;
      if inactivityTimeout < 0 {
        inactivityTimeout := 0;
      }
      quitRegistered := true;
      if NoPlayerOnline(online) {
        StartIdleTimer(online, worlds);
      }
    }

    /** `onDisable`: cancel the timer if there is one, unregister everything. */
    method OnDisable()
      requires Valid()
      modifies this
      ensures Valid()
      ensures Snapshot() == Disable(old(Snapshot()))
    {
      if idleTimer.Some? {
        idleTimer := Some(idleTimer.value.(status := Cancelled));
      }
      quitRegistered, joinRegistered := false, false;
      enabled := false;
    }

    /** `onTimerExpired`. */
    method OnTimerExpired(online: int, worlds: nat)
      requires Valid()
      modifies this
      ensures Valid()
      ensures Snapshot() == TimerExpired(old(Snapshot()), online, worlds)
    {
      ghost var next := TimerExpired(Snapshot(), online, worlds);
      if NoPlayerOnline(online) {
        quitRegistered, joinRegistered := false, false;
        RunShutdownTask(worlds);
      }
      assert Snapshot() == next;
    }

    /** The task handed to the scheduler on expiry, run to completion: save each
        world in turn, save the players, stop the instance, shut down. */
    method RunShutdownTask(worlds: nat)
      modifies this`trace
      ensures trace == old(trace) + Sequence(worlds)
    {
      var i := 0;
      while i < worlds
        invariant 0 <= i <= worlds
        invariant trace == old(trace) + SaveWorlds(i)
      {
        trace := trace + [SaveWorld(i)];
        i := i + 1;
      }
      trace := trace + [SavePlayers];
      trace := trace + [StopInstance];
      trace := trace + [ServerShutdown];
    }

    /** `onPlayerQuit`. */
    method OnPlayerQuit(online: int, worlds: nat)
      requires Valid() && quitRegistered
      modifies this
      ensures Valid()
      ensures Snapshot() == PlayerQuit(old(Snapshot()), online, worlds)
    {
      if LastPlayerOnline(online) {
        StartIdleTimer(online, worlds);
      }
    }

    /** `onPlayerJoin`: unregister the join listener and cancel the timer, which
        exists whenever the join listener is registered. */
    method OnPlayerJoin()
      requires Valid() && joinRegistered
      modifies this
      ensures Valid()
      ensures Snapshot() == PlayerJoin(old(Snapshot()))
    {
      joinRegistered := false;
      idleTimer := Some(idleTimer.value.(status := Cancelled));
    }

    /** `startIdleTimer`: the field is overwritten without cancelling the timer it
        referenced, so a task still pending there is orphaned. The delay is the
        32-bit product; `schedule` throws on a negative one, leaving the new
        timer without a task, and nothing after it runs. */
    method StartIdleTimer(online: int, worlds: nat)
      requires Valid() && quitRegistered
      modifies this
      ensures Valid()
      ensures Snapshot() == Inactivity.StartIdleTimer(old(Snapshot()), online, worlds)
    {
      if inactivityTimeout == 0 {
        OnTimerExpired(online, worlds);
      } else {
        joinRegistered := true;
        if idleTimer.Some? && idleTimer.value.status == Pending {
          orphans := orphans + 1;
        }
        var delay := Wrap32(inactivityTimeout * 1000);
        if delay < 0 {
          // IllegalArgumentException from schedule
          idleTimer := Some(Timer(delay, Rejected));
          return;
        }
        idleTimer := Some(Timer(delay, Pending));
      }
    }

    /** The environment: the referenced timer's task runs. */
    method TimerFires(online: int, worlds: nat)
      requires Valid() && Armed(Snapshot())
      modifies this
      ensures Valid()
      ensures Snapshot() == Fire(old(Snapshot()), online, worlds)
    {
      idleTimer := Some(idleTimer.value.(status := Fired));
      OnTimerExpired(online, worlds);
    }

    /** The environment: a task on a timer no longer referenced runs. */
    method OrphanTimerFires(online: int, worlds: nat)
      requires Valid() && orphans > 0
      modifies this
      ensures Valid()
      ensures Snapshot() == OrphanFire(old(Snapshot()), online, worlds)
    {
      orphans := orphans - 1;
      OnTimerExpired(online, worlds);
    }
  }

  /** The scenario of a 30-second timeout: the last player leaves, another joins
      ten seconds later; the timer is cancelled and no shutdown effect happens. */
  method JoinCancelsScenario(worlds: nat) returns (effects: seq<Action>, pending: nat)
    ensures effects == [] && pending == 0
  {
    var p := new InactivityShutdown();
    p.OnEnable(true, 30, 1, worlds);
    p.OnPlayerQuit(1, worlds);
    assert p.joinRegistered;
    p.OnPlayerJoin();
    effects, pending := p.trace, PendingTasks(p.Snapshot());
  }

  /** The scenario of a 5-second timeout: the last player leaves and nobody
      joins; the timer fires and exactly one run of the shutdown task happens,
      after which nothing can reach the plugin. */
  method ExpiryScenario(worlds: nat) returns (effects: seq<Action>, quiet: bool)
    ensures effects == Sequence(worlds) && quiet
  {
    var p := new InactivityShutdown();
    p.OnEnable(true, 5, 1, worlds);
    p.OnPlayerQuit(1, worlds);
    p.TimerFires(0, worlds);
    effects, quiet := p.trace, Quiescent(p.Snapshot());
  }
}
