/** The external effects of the shutdown task (Inactivityshutdown.java, the
    `Runnable` handed to the scheduler on expiry), recorded as a trace. */
module ShutdownTrace {

  /** One effect on the host or the cloud: save one world, save the players,
      stop the EC2 instance, shut the server down. */
  datatype Action = SaveWorld(world: nat) | SavePlayers | StopInstance | ServerShutdown

  /** An action that makes server data durable. */
  predicate IsPersist(a: Action) {
    a.SaveWorld? || a.SavePlayers?
  }

  /** The saves of worlds 0 .. n-1, in the order the server lists them. */
  function SaveWorlds(n: nat): (s: seq<Action>)
    ensures |s| == n
    ensures forall i :: 0 <= i < n ==> s[i] == SaveWorld(i)
  {
    if n == 0 then [] else SaveWorlds(n - 1) + [SaveWorld(n - 1)]
  }

  /** One run of the shutdown task on a server with `worlds` worlds: world i is
      saved at position i, then come the player save, the stop request and the
      shutdown. */
  function Sequence(worlds: nat): (s: seq<Action>)
    ensures |s| == worlds + 3
    ensures forall i :: 0 <= i < worlds ==> s[i] == SaveWorld(i)
    ensures s[worlds] == SavePlayers && s[worlds + 1] == StopInstance && s[worlds + 2] == ServerShutdown
  {
    SaveWorlds(worlds) + [SavePlayers, StopInstance, ServerShutdown]
  }

  /** How often `a` occurs in `t`. */
  function Count(t: seq<Action>, a: Action): (c: nat)
    ensures c <= |t|
  {
    multiset(t)[a]
  }

  /** Appending one action adds one occurrence of it and none of anything else. */
  lemma CountSnoc(t: seq<Action>, x: Action, a: Action)
    ensures Count(t + [x], a) == Count(t, a) + if x == a then 1 else 0
  {
  }

  /** Every world is saved exactly once in a run of the shutdown task. */
  lemma {:induction false} SaveWorldsOnce(n: nat, k: nat)
    ensures Count(SaveWorlds(n), SaveWorld(k)) == if k < n then 1 else 0
  {
    if n > 0 {
      SaveWorldsOnce(n - 1, k);
      CountSnoc(SaveWorlds(n - 1), SaveWorld(n - 1), SaveWorld(k));
    }
  }

  /** SaveWorlds holds nothing but world saves. */
  lemma {:induction false} SaveWorldsOnlySaves(n: nat, a: Action)
    requires !a.SaveWorld?
    ensures Count(SaveWorlds(n), a) == 0
  {
    if n > 0 {
      SaveWorldsOnlySaves(n - 1, a);
      CountSnoc(SaveWorlds(n - 1), SaveWorld(n - 1), a);
    }
  }

  /** How often each action occurs in one run. */
  lemma SequenceCounts(worlds: nat, a: Action)
    ensures Count(Sequence(worlds), a) ==
      match a
      case SaveWorld(k) => if k < worlds then 1 else 0
      case _ => 1
  {
    var tail := [SavePlayers, StopInstance, ServerShutdown];
    assert Sequence(worlds) == SaveWorlds(worlds) + tail;
    assert multiset(Sequence(worlds)) == multiset(SaveWorlds(worlds)) + multiset(tail);
    if a.SaveWorld? {
      SaveWorldsOnce(worlds, a.world);
    } else {
      SaveWorldsOnlySaves(worlds, a);
    }
  }

  /** The shape of one run: each world saved once, then the players saved, then
      the instance stopped, then the server shut down, each of the last three
      exactly once; every persistence action comes before the stop request and
      the stop request comes before the shutdown. */
  lemma SequenceOrdered(worlds: nat)
    ensures var s := Sequence(worlds);
      && (forall k: nat :: Count(s, SaveWorld(k)) == if k < worlds then 1 else 0)
      && Count(s, SavePlayers) == 1
      && Count(s, StopInstance) == 1
      && Count(s, ServerShutdown) == 1
      && (forall i, j :: 0 <= i < |s| && 0 <= j < |s| && IsPersist(s[i]) && s[j] == StopInstance ==> i < j)
      && (forall i, j :: 0 <= i < |s| && 0 <= j < |s| && s[i] == StopInstance && s[j] == ServerShutdown ==> i < j)
  {
    forall k: nat ensures Count(Sequence(worlds), SaveWorld(k)) == if k < worlds then 1 else 0 {
      SequenceCounts(worlds, SaveWorld(k));
    }
    SequenceCounts(worlds, SavePlayers);
    SequenceCounts(worlds, StopInstance);
    SequenceCounts(worlds, ServerShutdown);
  }

  /** The local shape of a trace of runs: it is empty or ends with a shutdown;
      every player save is followed at once by a stop request; every stop request
      comes right after a player save and right before a shutdown; every
      shutdown comes right after a stop request. */
  predicate WellFormed(t: seq<Action>) {
    && (t != [] ==> t[|t| - 1] == ServerShutdown)
    && (forall j :: 0 <= j < |t| && t[j] == SavePlayers ==> j + 1 < |t| && t[j + 1] == StopInstance)
    && (forall j :: 0 <= j < |t| && t[j] == StopInstance ==> 0 < j < |t| - 1 && t[j - 1] == SavePlayers && t[j + 1] == ServerShutdown)
    && (forall j :: 0 <= j < |t| && t[j] == ServerShutdown ==> 0 < j && t[j - 1] == StopInstance)
  }

  /** Appending a run of the shutdown task keeps the trace well formed. */
  lemma AppendRun(t: seq<Action>, worlds: nat)
    requires WellFormed(t)
    ensures WellFormed(t + Sequence(worlds))
  {
    var u := t + Sequence(worlds);
    var n := |t| + worlds;
    assert u[n] == SavePlayers && u[n + 1] == StopInstance && u[n + 2] == ServerShutdown;
    assert |u| == n + 3;
    forall j | 0 <= j < |u| && u[j] == SavePlayers
      ensures j + 1 < |u| && u[j + 1] == StopInstance
    {
      if j < |t| {
        assert t[j] == SavePlayers;
      }
    }
    forall j | 0 <= j < |u| && u[j] == StopInstance
      ensures 0 < j < |u| - 1 && u[j - 1] == SavePlayers && u[j + 1] == ServerShutdown
    {
      if j < |t| {
        assert t[j] == StopInstance;
        assert u[j + 1] == t[j + 1];
      }
    }
    forall j | 0 <= j < |u| && u[j] == ServerShutdown
      ensures 0 < j && u[j - 1] == StopInstance
    {
      if j < |t| {
        assert t[j] == ServerShutdown;
      }
    }
  }

  /** The runs of the shutdown task with the given world counts, one after the
      other. */
  function Runs(ws: seq<nat>): (t: seq<Action>)
    ensures ws == [] ==> t == []
  {
    if ws == [] then [] else Runs(ws[..|ws| - 1]) + Sequence(ws[|ws| - 1])
  }

  /** The trace is a concatenation of whole runs of the shutdown task (the
      empty trace is the concatenation of none). */
  ghost predicate MadeOfRuns(t: seq<Action>) {
    t == [] || exists ws :: t == Runs(ws)
  }

  /** Appending one more run extends the list of runs by its world count. */
  lemma RunsSnoc(ws: seq<nat>, worlds: nat)
    ensures Runs(ws + [worlds]) == Runs(ws) + Sequence(worlds)
  {
    assert (ws + [worlds])[..|ws|] == ws;
  }

  /** Appending a run to a trace of whole runs gives a trace of whole runs. */
  lemma AppendRunKeepsRuns(t: seq<Action>, worlds: nat)
    requires MadeOfRuns(t)
    ensures MadeOfRuns(t + Sequence(worlds))
  {
    var ws: seq<nat> := [];
    if t != [] {
      ws :| t == Runs(ws);
    }
    RunsSnoc(ws, worlds);
  }

  /** A trace of whole runs has the local shape of WellFormed. */
  lemma {:induction false} RunsWellFormed(ws: seq<nat>)
    ensures WellFormed(Runs(ws))
  {
    if ws != [] {
      RunsWellFormed(ws[..|ws| - 1]);
      AppendRun(Runs(ws[..|ws| - 1]), ws[|ws| - 1]);
    }
  }
}
