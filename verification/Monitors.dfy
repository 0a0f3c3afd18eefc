/** Links and monitors of a changing group of processes, updated from both ends while any
    number of teardowns are under way. */
module Monitors {
  import opened Identifiers

  import opened Links

  /** Each process's `monitors`, or each process's `monitored_by`. */
  type Table = map<Pid, map<Ref, Pid>>

  datatype World = World(links: Graph, monitors: Table, monitoredBy: Table)

  predicate Shaped(w: World) {
    w.monitors.Keys == w.links.Keys && w.monitoredBy.Keys == w.links.Keys
  }

  /** `a`'s table says that `a` monitors `b` under `ref`. */
  predicate Watches(w: World, a: Pid, ref: Ref, b: Pid) {
    a in w.monitors && ref in w.monitors[a] && w.monitors[a][ref] == b
  }

  /** `b`'s table says so. */
  predicate WatchedBy(w: World, b: Pid, ref: Ref, a: Pid) {
    b in w.monitoredBy && ref in w.monitoredBy[b] && w.monitoredBy[b][ref] == a
  }

  ghost predicate Paired(w: World) {
    forall a, ref, b :: Watches(w, a, ref, b) <==> WatchedBy(w, b, ref, a)
  }

  ghost predicate TwoSided(w: World) {
    Symmetric(w.links) && Paired(w)
  }

  function Spawned(w: World, p: Pid): World {
    World(w.links[p := {}], w.monitors[p := map[]], w.monitoredBy[p := map[]])
  }

  /** `monitor`, of a process that has not stopped. */
  function Watched(w: World, a: Pid, b: Pid, ref: Ref): (r: World)
    requires Shaped(w) && a in w.links && b in w.links
    ensures Shaped(r) && r.links == w.links
  {
    w.(monitors := w.monitors[a := w.monitors[a][ref := b]],
       monitoredBy := w.monitoredBy[b := w.monitoredBy[b][ref := a]])
  }

  /** Takes `refs` out of `a`'s monitors and each out of the process it monitors: one ref or
      all refs for one process in `demonitor`, and all refs at the end of a teardown. */
  function Dropped(w: World, a: Pid, refs: set<Ref>): (r: World)
    requires Shaped(w) && a in w.links
    ensures Shaped(r) && r.links == w.links
  {
    w.(monitors := w.monitors[a := w.monitors[a] - refs],
       monitoredBy := map b | b in w.monitoredBy :: Cut(w.monitoredBy[b], b, w.monitors[a], refs))
  }

  /** `monitored_by` of `b` without the `refs` under which `held` names `b`. */
  function Cut(who: map<Ref, Pid>, b: Pid, held: map<Ref, Pid>, refs: set<Ref>): map<Ref, Pid> {
    map ref | ref in who && !(ref in refs && ref in held && held[ref] == b) :: who[ref]
  }

  /** The teardown of `b` is about to tell `a` of its end: both forget `ref`. */
  function Forgotten(w: World, b: Pid, a: Pid, ref: Ref): (r: World)
    requires Shaped(w) && a in w.links && b in w.links
    ensures Shaped(r) && r.links == w.links
  {
    w.(monitors := w.monitors[a := w.monitors[a] - {ref}],
       monitoredBy := w.monitoredBy[b := w.monitoredBy[b] - {ref}])
  }

  /** The refs under which `a` monitors `b`. */
  function RefsFor(w: World, a: Pid, b: Pid): set<Ref>
    requires Shaped(w) && a in w.links
  {
    set ref | ref in w.monitors[a] && w.monitors[a][ref] == b
  }

  /** Where a process is in its life. `Telling`: the monitors listed and not yet told;
      `Sending`: the same, while the Down of `ref` is on its way into a mailbox;
      `Unlinking`: the links listed and not yet told; `Leaving`: its own monitors released. */
  datatype Stage =
    | Running
    | Closed
    | Telling(downs: map<Ref, Pid>)
    | Sending(downs: map<Ref, Pid>, ref: Ref)
    | Unlinking(rest: set<Pid>)
    | Leaving
    | Stopped

  /** The processes, the Down messages waiting in their mailboxes and the refs they are to
      ignore; and history: what every ref was issued for, the Down messages sent, and the
      refs given to `handle_down`. */
  datatype Net = Net(
    world: World,
    stage: map<Pid, Stage>,
    mail: map<Pid, seq<Ref>>,
    ignored: map<Pid, set<Ref>>,
    issued: map<Ref, (Pid, Pid)>,
    sent: multiset<Ref>,
    seen: multiset<Ref>)

  /** What processes do by calling each other's methods. */
  datatype Call =
    | Link(a: Pid, b: Pid)
    | Unlink(a: Pid, b: Pid)
    | Monitor(a: Pid, b: Pid, ref: Ref)
    | Demonitor(a: Pid, ref: Ref, flush: bool)
    | DemonitorProcess(a: Pid, b: Pid)

  /** How a teardown moves on, apart from telling its monitors. */
  datatype Move = Close | ListMonitors | ListLinks | TellLink(b: Pid) | Release | Stop

  /** What runs between two awaits. */
  datatype Step =
    | Spawn(p: Pid)
    | Makes(call: Call)
    | HandleDown(a: Pid)
    | TellMonitor(a: Pid, ref: Ref)
    | DeliverDown(a: Pid)
    | Teardown(a: Pid, move: Move)

  const EMPTY: Net := Net(World(map[], map[], map[]), map[], map[], map[], map[], multiset{}, multiset{})

  predicate Known(n: Net) {
    && Shaped(n.world)
    && n.stage.Keys == n.world.links.Keys
    && n.mail.Keys == n.world.links.Keys
    && n.ignored.Keys == n.world.links.Keys
  }

  /** Links, monitors and demonitors may come at any time; generated refs are new. */
  predicate Callable(n: Net, call: Call)
    requires Known(n)
  {
    match call
    case Link(a, b) => a in n.stage && b in n.stage
    case Unlink(a, b) => a in n.stage && b in n.stage
    case Monitor(a, b, ref) => a in n.stage && b in n.stage && ref !in n.issued
    case Demonitor(a, _, _) => a in n.stage
    case DemonitorProcess(a, b) => a in n.stage && b in n.stage
  }

  /** A teardown goes through its stages in order. */
  predicate Movable(n: Net, a: Pid, move: Move)
    requires Known(n)
  {
    && a in n.stage
    && match move
       case Close => n.stage[a].Running?
       case ListMonitors => n.stage[a].Closed?
       case ListLinks => n.stage[a] == Telling(map[])
       case TellLink(b) => n.stage[a].Unlinking? && b in n.stage[a].rest && b in n.stage
       case Release => n.stage[a] == Unlinking({})
       case Stop => n.stage[a].Leaving?
  }

  /** Generated ids are new; only a running loop runs handlers. */
  predicate Enabled(n: Net, step: Step)
    requires Known(n)
  {
    match step
    case Spawn(p) => p !in n.stage
    case Makes(call) => Callable(n, call)
    case HandleDown(a) => a in n.stage && n.stage[a].Running? && n.mail[a] != []
    case TellMonitor(a, ref) =>
      a in n.stage && n.stage[a].Telling? && ref in n.stage[a].downs && n.stage[a].downs[ref] in n.stage
    case DeliverDown(a) =>
      a in n.stage && n.stage[a].Sending? && n.stage[a].ref in n.stage[a].downs
        && n.stage[a].downs[n.stage[a].ref] in n.stage
    case Teardown(a, move) => Movable(n, a, move)
  }

  /** A Down for `ref` is put into the mailbox of `a`, unless that is closed. */
  function Sent(n: Net, a: Pid, ref: Ref): (r: Net)
    requires Known(n) && a in n.stage
    ensures Known(r) && r == n.(mail := r.mail, sent := r.sent)
  {
    if n.stage[a].Running? then n.(mail := n.mail[a := n.mail[a] + [ref]], sent := n.sent + multiset{ref}) else n
  }

  /** Up to the next await: both ends forget the monitor, and its Down is being sent. */
  function Told(n: Net, x: Pid, ref: Ref): (r: Net)
    requires Known(n) && Enabled(n, TellMonitor(x, ref))
    ensures Known(r)
  {
    n.(world := Forgotten(n.world, x, n.stage[x].downs[ref], ref),
       stage := n.stage[x := Sending(n.stage[x].downs, ref)])
  }

  function Delivered(n: Net, x: Pid): (r: Net)
    requires Known(n) && Enabled(n, DeliverDown(x))
    ensures Known(r)
  {
    var ref := n.stage[x].ref;
    Sent(n.(stage := n.stage[x := Telling(n.stage[x].downs - {ref})]), n.stage[x].downs[ref], ref)
  }

  function Demonitored(n: Net, a: Pid, ref: Ref, flush: bool): (r: Net)
    requires Known(n) && a in n.stage
    ensures Known(r) && r.stage == n.stage && r.sent == n.sent && r.issued == n.issued
  {
    if ref in n.world.monitors[a] then n.(world := Dropped(n.world, a, {ref}))
    else if flush then n.(ignored := n.ignored[a := n.ignored[a] + {ref}])
    else n
  }

  function Handled(n: Net, a: Pid): (r: Net)
    requires Known(n) && Enabled(n, HandleDown(a))
    ensures Known(r) && r == n.(mail := n.mail[a := n.mail[a][1..]], ignored := r.ignored, seen := r.seen)
  {
    var ref := n.mail[a][0];
    var taken := n.(mail := n.mail[a := n.mail[a][1..]]);
    if ref in n.ignored[a] then taken.(ignored := n.ignored[a := n.ignored[a] - {ref}])
    else taken.(seen := n.seen + multiset{ref})
  }

  function Monitored(n: Net, a: Pid, b: Pid, ref: Ref): (r: Net)
    requires Known(n) && Callable(n, Monitor(a, b, ref))
    ensures Known(r) && r == n.(issued := n.issued[ref := (a, b)], world := r.world, mail := r.mail, sent := r.sent)
  {
    var issued := n.(issued := n.issued[ref := (a, b)]);
    if n.stage[b].Stopped? then Sent(issued, a, ref)
    else issued.(world := Watched(n.world, a, b, ref))
  }

  function StageAfter(n: Net, a: Pid, move: Move): (r: Stage)
    requires Known(n) && Movable(n, a, move)
    ensures !r.Running?
  {
    match move
    case Close => Closed
    case ListMonitors => Telling(n.world.monitoredBy[a])
    case ListLinks => Unlinking(n.world.links[a])
    case TellLink(b) => Unlinking(n.stage[a].rest - {b})
    case Release => Leaving
    case Stop => Stopped
  }

  function WorldAfter(n: Net, a: Pid, move: Move): (r: World)
    requires Known(n) && Movable(n, a, move)
    ensures Shaped(r) && r.links.Keys == n.world.links.Keys
  {
    match move
    case TellLink(b) => n.world.(links := Parted(n.world.links, a, b))
    case Release => Dropped(n.world, a, n.world.monitors[a].Keys)
    case _ => n.world
  }

  /** A teardown moves on to its next stage. */
  function Moved(n: Net, a: Pid, move: Move): (r: Net)
    requires Known(n) && Movable(n, a, move)
    ensures Known(r)
  {
    n.(world := WorldAfter(n, a, move), stage := n.stage[a := StageAfter(n, a, move)])
  }

  function Called(n: Net, call: Call): (r: Net)
    requires Known(n) && Callable(n, call)
    ensures Known(r) && r.stage == n.stage
    ensures !call.Monitor? ==> r.sent == n.sent && r.issued == n.issued
  {
    match call
    case Link(a, b) => n.(world := n.world.(links := Joined(n.world.links, a, b)))
    case Unlink(a, b) => n.(world := n.world.(links := Parted(n.world.links, a, b)))
    case Monitor(a, b, ref) => Monitored(n, a, b, ref)
    case Demonitor(a, ref, flush) => Demonitored(n, a, ref, flush)
    case DemonitorProcess(a, b) => n.(world := Dropped(n.world, a, RefsFor(n.world, a, b)))
  }

  function Born(n: Net, p: Pid): (r: Net)
    requires Known(n)
    ensures Known(r)
  {
    n.(world := Spawned(n.world, p), stage := n.stage[p := Running], mail := n.mail[p := []],
       ignored := n.ignored[p := {}])
  }

  function Next(n: Net, step: Step): (n': Net)
    requires Known(n)
    ensures Known(n')
  {
    if !Enabled(n, step) then n
    else
      match step
      case Spawn(p) => Born(n, p)
      case Makes(call) => Called(n, call)
      case HandleDown(a) => Handled(n, a)
      case TellMonitor(a, ref) => Told(n, a, ref)
      case DeliverDown(a) => Delivered(n, a)
      case Teardown(a, move) => Moved(n, a, move)
  }

  function Run(n: Net, steps: seq<Step>): (n': Net)
    requires Known(n)
    ensures Known(n')
    decreases |steps|
  {
    if steps == [] then n else Run(Next(n, steps[0]), steps[1..])
  }
}
