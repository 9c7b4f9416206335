/**
 * The agent's process table: start and stop commands for llama-server processes, in any
 * order, any number of times, interleaved at every await. One step is the code between two
 * awaits: the checks and the spawn, the handler of a failed start, the end of a stop.
 */
module ProcessFence {
  import opened Common

  type Pid = nat

  datatype Proc = Proc(pid: Pid, generation: int)
  datatype Launched = Launched(server: ServerId, generation: int)

  datatype Table = Table(
    servers: map<ServerId, Proc>,
    slotGenerations: map<ServerId, int>,
    launched: seq<Launched>,   // history: process p was launched as launched[p]
    alive: set<Pid>)

  const EMPTY := Table(map[], map[], [], {})

  function Latest(t: Table, id: ServerId): int {
    if id in t.slotGenerations then t.slotGenerations[id] else -1
  }

  predicate Fenced(t: Table, id: ServerId, g: int) {
    (Latest(t, id) > 0 || g > 0) && g <= Latest(t, id)
  }

  // The exception handler of a start: whatever process is recorded is forgotten and killed.
  function Abandon(t: Table, id: ServerId): Table {
    t.(servers := t.servers - {id},
       alive := if id in t.servers then t.alive - {t.servers[id].pid} else t.alive)
  }

  function Launch(t: Table, id: ServerId, g: int, spawns: bool): Table {
    if Fenced(t, id, g) then t
    else if !spawns then Abandon(t, id)
    else Table(t.servers[id := Proc(|t.launched|, g)], t.slotGenerations[id := g],
               t.launched + [Launched(id, g)], t.alive + {|t.launched|})
  }

  function Forget(t: Table, id: ServerId): Table {
    t.(servers := t.servers - {id})
  }

  datatype StartCheck = Refuse | Replace(current: int) | Go

  function CheckStart(t: Table, id: ServerId, g: int): StartCheck {
    if id in t.servers then
      if g <= t.servers[id].generation then Refuse else Replace(t.servers[id].generation)
    else Go
  }

  // ----------------------------------------------------- the manager, in place

  class ProcessTable {
    var servers: map<ServerId, Proc>
    var slotGenerations: map<ServerId, int>
    var launched: seq<Launched>
    var alive: set<Pid>

    ghost function State(): Table
      reads this
    {
      Table(servers, slotGenerations, launched, alive)
    }

    constructor ()
      ensures State() == EMPTY
    {
      servers, slotGenerations, launched, alive := map[], map[], [], {};
    }

    // start_server under its lock, up to the stop of the process it replaces.
    method BeginStart(id: ServerId, g: int) returns (check: StartCheck)
      ensures check == CheckStart(State(), id, g)
      ensures check.Refuse? <==> id in servers && g <= servers[id].generation
      ensures check.Replace? <==> id in servers && g > servers[id].generation
      ensures check.Replace? ==> check.current == servers[id].generation
    {
      if id in servers {
        var current := servers[id].generation;
        if g <= current {
          return Refuse;
        }
        return Replace(current);
      }
      return Go;
    }

    // From there to the wait for health. `spawns`: Popen succeeds.
    method SpawnLocked(id: ServerId, g: int, spawns: bool) returns (spawned: bool)
      modifies this
      ensures State() == Launch(old(State()), id, g, spawns)
      ensures var latest := if id in old(slotGenerations) then old(slotGenerations)[id] else -1;
              var fenced := (latest > 0 || g > 0) && g <= latest;
              && (spawned <==> spawns && !fenced)
              && (fenced ==> State() == old(State()))
      ensures spawned ==>
                && launched == old(launched) + [Launched(id, g)] && alive == old(alive) + {|old(launched)|}
                && servers == old(servers)[id := Proc(|old(launched)|, g)]
                && slotGenerations == old(slotGenerations)[id := g]
      ensures !spawned ==> slotGenerations == old(slotGenerations) && launched == old(launched)
    {
      var latest := if id in slotGenerations then slotGenerations[id] else -1;
      var generationIsFenced := latest > 0 || g > 0;
      if generationIsFenced && g <= latest {
        return false;
      }
      if !spawns {
        FailStart(id);
        return false;
      }
      var pid := |launched|;
      launched := launched + [Launched(id, g)];
      alive := alive + {pid};
      servers := servers[id := Proc(pid, g)];
      slotGenerations := slotGenerations[id := g];
      return true;
    }

    method FailStart(id: ServerId)
      modifies this
      ensures State() == Abandon(old(State()), id)
      ensures servers == old(servers) - {id}
      ensures alive == if id in old(servers) then old(alive) - {old(servers)[id].pid} else old(alive)
      ensures slotGenerations == old(slotGenerations) && launched == old(launched)
    {
      if id in servers {
        alive := alive - {servers[id].pid};
      }
      servers := servers - {id};
    }

    // stop_server up to its wait: a command that names another generation finds nothing to stop.
    method BeginStop(id: ServerId, g: Option<int>) returns (process: Option<Proc>)
      ensures process.Some? <==> id in servers && (g.Some? ==> servers[id].generation == g.value)
      ensures process.Some? ==> process.value == servers[id]
    {
      if !(id in servers) {
        return None;
      }
      if g.Some? && g.value != servers[id].generation {
        return None;
      }
      return Some(servers[id]);
    }

    // stop_server after its wait; also the health monitor after it saw the process exit.
    method EndStop(id: ServerId)
      modifies this
      ensures State() == Forget(old(State()), id)
      ensures servers == old(servers) - {id} && alive == old(alive)
      ensures slotGenerations == old(slotGenerations) && launched == old(launched)
    {
      servers := servers - {id};
    }
  }

  // ------------------------------------------------------------------- steps

  datatype Step =
    | LaunchStep(id: ServerId, g: int, replacing: bool, spawns: bool)  // replacing: after a stop of its own
    | FailStep(id: ServerId)
    | ExitStep(pid: Pid)
    | ForgetStep(id: ServerId, pid: Pid)       // the end of a stop that waited for pid

  predicate Enabled(t: Table, step: Step) {
    match step
    case LaunchStep(id, _, replacing, _) => !replacing ==> id !in t.servers
    case FailStep(_) => true
    case ExitStep(pid) => pid in t.alive
    case ForgetStep(_, pid) => pid !in t.alive
  }

  function Apply(t: Table, step: Step): Table {
    match step
    case LaunchStep(id, g, _, spawns) => Launch(t, id, g, spawns)
    case FailStep(id) => Abandon(t, id)
    case ExitStep(pid) => t.(alive := t.alive - {pid})
    case ForgetStep(id, _) => Forget(t, id)
  }

  // A later generation of a server is larger, or neither was ever fenced.
  predicate Succeeds(earlier: int, later: int) {
    if later > 0 then earlier < later else earlier <= 0
  }

  ghost predicate Inv(t: Table) {
    && (forall p | p in t.alive :: p < |t.launched|)
    && (forall id | id in t.servers ::
          && t.servers[id].pid < |t.launched|
          && t.launched[t.servers[id].pid] == Launched(id, t.servers[id].generation))
    && (forall p, q | 0 <= p < q < |t.launched| && t.launched[p].server == t.launched[q].server ::
          Succeeds(t.launched[p].generation, t.launched[q].generation))
    && (forall p | 0 <= p < |t.launched| ::
          && t.launched[p].server in t.slotGenerations
          && (t.launched[p].generation <= Latest(t, t.launched[p].server)
              || (t.launched[p].generation <= 0 && Latest(t, t.launched[p].server) <= 0)))
  }

  lemma InvStep(t: Table, step: Step)
    requires Inv(t) && Enabled(t, step)
    ensures Inv(Apply(t, step))
  {}

  datatype Run = Run(tables: seq<Table>, steps: seq<Step>)

  ghost predicate Valid(run: Run) {
    && |run.tables| == |run.steps| + 1
    && run.tables[0] == EMPTY
    && forall i {:trigger run.steps[i]} | 0 <= i < |run.steps| ::
         Enabled(run.tables[i], run.steps[i]) && run.tables[i + 1] == Apply(run.tables[i], run.steps[i])
  }

  lemma {:induction false} Reachable(run: Run, i: nat)
    requires Valid(run) && i < |run.tables|
    ensures Inv(run.tables[i])
  {
    if i > 0 {
      Reachable(run, i - 1);
      InvStep(run.tables[i - 1], run.steps[i - 1]);
    }
  }

  /**
   * However starts and stops are delayed, repeated or reordered, the positive generations
   * launched for a server strictly increase, and no unfenced one follows a positive one.
   */
  lemma LaunchedGenerationsIncrease(run: Run, i: nat, p: nat, q: nat)
    requires Valid(run) && i < |run.tables| && p < q < |run.tables[i].launched|
    requires run.tables[i].launched[p].server == run.tables[i].launched[q].server
    ensures run.tables[i].launched[q].generation > 0 ==>
              run.tables[i].launched[p].generation < run.tables[i].launched[q].generation
    ensures run.tables[i].launched[p].generation > 0 ==> run.tables[i].launched[q].generation > 0
  {
    Reachable(run, i);
    assert Succeeds(run.tables[i].launched[p].generation, run.tables[i].launched[q].generation);
  }

  /** A start that fails burns its generation exactly when a process had been spawned for it. */
  lemma FailedStartBurnsIffSpawned(t: Table, id: ServerId, g: int, spawns: bool)
    requires Inv(t) && g > 0 && !Fenced(t, id, g)
    ensures Fenced(Abandon(Launch(t, id, g, spawns), id), id, g) <==> spawns
    ensures id !in Abandon(Launch(t, id, g, spawns), id).servers
  {}

  // Every live process is the one its server's record names.
  ghost predicate Tracked(t: Table) {
    forall p | p in t.alive && p < |t.launched| ::
      t.launched[p].server in t.servers && t.servers[t.launched[p].server].pid == p
  }

  // No live process is recorded where the step overwrites or drops a record.
  predicate Careful(t: Table, step: Step) {
    match step
    case LaunchStep(id, g, _, spawns) =>
      spawns && !Fenced(t, id, g) && id in t.servers ==> t.servers[id].pid !in t.alive
    case ForgetStep(id, _) => id in t.servers ==> t.servers[id].pid !in t.alive
    case _ => true
  }

  /**
   * A step loses track of a running process exactly when it overwrites or drops the record
   * of one: a start whose own stop overlapped another start, or a stop that ends after its
   * server was started again.
   */
  lemma TrackedStep(t: Table, step: Step)
    requires Inv(t) && Tracked(t) && Enabled(t, step)
    ensures Tracked(Apply(t, step)) <==> Careful(t, step)
  {
    var u := Apply(t, step);
    match step
    case LaunchStep(id, g, _, spawns) =>
      if spawns && !Fenced(t, id, g) {
        if id in t.servers && t.servers[id].pid in t.alive {
          assert u.launched[t.servers[id].pid] == t.launched[t.servers[id].pid];
        }
      }
    case ForgetStep(id, _) =>
      if id in t.servers && t.servers[id].pid in t.alive {
        assert u.launched[t.servers[id].pid].server == id;
      }
    case _ =>
  }

  /** While every step is careful, a server has at most one live process, the recorded one. */
  lemma {:induction false} OneLiveProcess(run: Run, i: nat, p: Pid, q: Pid)
    requires Valid(run) && i < |run.tables|
    requires forall k {:trigger run.steps[k]} | 0 <= k < i :: Careful(run.tables[k], run.steps[k])
    ensures Tracked(run.tables[i])
    ensures var t := run.tables[i];
            p in t.alive && q in t.alive && p < |t.launched| && q < |t.launched| ==>
              t.launched[p].server == t.launched[q].server ==> p == q
  {
    if i > 0 {
      OneLiveProcess(run, i - 1, p, q);
      Reachable(run, i - 1);
      TrackedStep(run.tables[i - 1], run.steps[i - 1]);
    }
  }

  // Two overlapping stops of generation 1 around a start of generation 2.
  function Scripted(k: nat): Step {
    match k
    case 0 => LaunchStep(0, 1, false, true)
    case 1 => ExitStep(0)
    case 2 => ForgetStep(0, 0)
    case 3 => LaunchStep(0, 2, false, true)
    case 4 => ForgetStep(0, 0)
    case _ => LaunchStep(0, 3, false, true)
  }

  function Played(k: nat): Table {
    if k == 0 then EMPTY else Apply(Played(k - 1), Scripted(k - 1))
  }

  /** Stops that overlap a start can leave two live processes of one server, one of them forgotten. */
  lemma OverlappingStopsLoseAProcess() returns (run: Run)
    ensures Valid(run) && |run.tables| == 7
    ensures forall k | 0 <= k < |run.steps| :: run.steps[k] == Scripted(k)
    ensures var t := run.tables[6];
            && |t.launched| == 3 && t.launched[1].server == t.launched[2].server
            && 1 in t.alive && 2 in t.alive && 0 in t.servers && t.servers[0].pid == 2
  {
    var t1 := Played(1);
    assert t1.launched == [Launched(0, 1)] && t1.servers[0] == Proc(0, 1) && t1.alive == {0};
    var t2 := Played(2);
    assert t2.alive == {};
    var t3 := Played(3);
    assert 0 !in t3.servers;
    var t4 := Played(4);
    assert t4.launched == [Launched(0, 1), Launched(0, 2)] && t4.alive == {1};
    var t5 := Played(5);
    assert 0 !in t5.servers;
    var t6 := Played(6);
    assert t6.launched == [Launched(0, 1), Launched(0, 2), Launched(0, 3)];
    run := Run([EMPTY, t1, t2, t3, t4, t5, t6], seq(6, k requires 0 <= k < 6 => Scripted(k)));
  }
}
