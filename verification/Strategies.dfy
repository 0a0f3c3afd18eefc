/** Group restart: `one_for_all` and `rest_for_one` over an ordered list of children. */
module Strategies {
  import opened Seqs

  type Id(==, !new)

  datatype RestartType = Permanent | Transient | Temporary

  datatype ChildSpec = ChildSpec(id: Id, restart: RestartType)

  type Instance = nat

  datatype RunningChild = RunningChild(process: Instance, spec: ChildSpec)

  datatype Strategy = OneForAll | RestForOne

  /** `specs` and `exited` are `child_specs` and `_exited_child_specs`; `events` are the ids in
      `_strategy_stopped_events`, whose event is set once the child's process is in `stopped`
      (with whether it crashed). History: the processes told to stop, in order, and those
      whose end was counted as a failure. */
  datatype Group = Group(
    specs: seq<ChildSpec>,
    exited: set<Id>,
    terminating: bool,
    children: map<Id, RunningChild>,
    events: set<Id>,
    stopped: map<Instance, bool>,
    spawned: Instance,
    shutdowns: seq<Instance>,
    counted: seq<Instance>)

  function Ids(specs: seq<ChildSpec>): seq<Id> {
    seq(|specs|, i requires 0 <= i < |specs| => specs[i].id)
  }

  /** `_should_restart` */
  predicate ShouldRestart(crashed: bool, spec: ChildSpec) {
    match spec.restart
    case Permanent => true
    case Temporary => false
    case Transient => crashed
  }

  /** The specs, in order, whose id is in `ids`. */
  function SpecsOf(specs: seq<ChildSpec>, ids: set<Id>): seq<ChildSpec> {
    if specs == [] then []
    else if specs[0].id in ids then [specs[0]] + SpecsOf(specs[1..], ids)
    else SpecsOf(specs[1..], ids)
  }

  /** `_ordered_running_ids` */
  function Running(g: Group): seq<Id> {
    Ids(SpecsOf(g.specs, g.events))
  }

  /** `_shutdown_child` of one child, if it is there and still runs. The reasons it is
      stopped with are abnormal ones; it is recorded as not crashed, since the loop deals
      with such a child in the same round and never asks how it ended. */
  function ShutDown(g: Group, id: Id): Group {
    if id in g.children && g.children[id].process !in g.stopped then
      var p := g.children[id].process;
      g.(stopped := g.stopped[p := false], shutdowns := g.shutdowns + [p])
    else g
  }

  /** Shuts down the children of `ids`, last one first. */
  function ShutDownAll(g: Group, ids: seq<Id>): Group
    decreases |ids|
  {
    if ids == [] then g else ShutDownAll(ShutDown(g, ids[|ids| - 1]), ids[..|ids| - 1])
  }

  function Forget(g: Group, ids: set<Id>): Group {
    g.(children := g.children - ids, events := g.events - ids)
  }

  function Start(g: Group, spec: ChildSpec): Group {
    g.(children := g.children[spec.id := RunningChild(g.spawned, spec)], events := g.events + {spec.id},
       spawned := g.spawned + 1)
  }

  /** `_start_strategy_children` */
  function StartAll(g: Group, specs: seq<ChildSpec>): Group
    decreases |specs|
  {
    if specs == [] then g else StartAll(Start(g, specs[0]), specs[1..])
  }

  /** `_restart_strategy_children` */
  function RestartChildren(g: Group, ids: seq<Id>, restart: bool): Group {
    var g1 := Forget(ShutDownAll(g, ids), Elements(ids));
    if restart then StartAll(g1, SpecsOf(g1.specs, Elements(ids))) else g1
  }

  /** `_drop_child_spec` */
  function DropSpec(g: Group, id: Id): Group {
    g.(specs := Except(g.specs, id), exited := g.exited + {id})
  }

  function Except(specs: seq<ChildSpec>, id: Id): seq<ChildSpec> {
    if specs == [] then []
    else if specs[0].id == id then Except(specs[1..], id)
    else [specs[0]] + Except(specs[1..], id)
  }

  /** Where an id stands in a list that has it. */
  function IndexOf(ids: seq<Id>, id: Id): (i: nat)
    requires id in ids
    ensures i < |ids| && ids[i] == id && id !in ids[..i]
  {
    if ids[0] == id then 0 else 1 + IndexOf(ids[1..], id)
  }

  /** `terminate`: the children are shut down in reverse order and forgotten. */
  function Terminated(g: Group): Group {
    ShutDownAll(g.(terminating := true), Ids(SpecsOf(g.specs, g.children.Keys))).(children := map[])
  }

  datatype Decision = Ignored | Restarting | Dropping | Cleared

  predicate Crashed(g: Group, id: Id) {
    id in g.children && g.children[id].process in g.stopped && g.stopped[g.children[id].process]
  }

  /** What the loop does about the stopped child `id`. Under `one_for_all` the running
      child's own spec counts; under `rest_for_one` the one in `child_specs`. */
  function Decide(g: Group, strategy: Strategy, id: Id): Decision {
    if id !in Running(g) then Ignored
    else if g.terminating || (strategy.OneForAll? && id !in g.children) then Cleared
    else
      var spec := if strategy.OneForAll? then g.children[id].spec
        else SpecsOf(g.specs, g.events)[IndexOf(Running(g), id)];
      if ShouldRestart(Crashed(g, id), spec) then Restarting else Dropping
  }

  function Counted(g: Group, id: Id): Group {
    if id in g.children then g.(counted := g.counted + [g.children[id].process]) else g
  }

  /** The later children are shut down first, then all from position `i` on restarted. */
  function RestartRest(g: Group, ids: seq<Id>, i: nat): Group
    requires i < |ids|
  {
    RestartChildren(ShutDownAll(g, ids[i + 1..]), ids[i..], true)
  }

  /** One iteration of `_one_for_all` or `_rest_for_one` with the stopped child `id`, when
      restart intensity allows it. */
  function Round(g: Group, strategy: Strategy, id: Id): Group {
    var ids := Running(g);
    match Decide(g, strategy, id)
    case Ignored => g
    case Cleared => Forget(g, {id})
    case Dropping =>
      if strategy.OneForAll? then RestartChildren(DropSpec(g, id), ids, false) else Forget(DropSpec(g, id), {id})
    case Restarting =>
      if strategy.OneForAll? then RestartChildren(Counted(g, id), ids, true)
      else RestartRest(Counted(g, id), ids, IndexOf(ids, id))
  }
}
