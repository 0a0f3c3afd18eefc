/** One turn of the state machine as a function: the callback's answer is unpacked, its
    actions are applied, and on a state change the postponed events come back. */
module MachineModel {
  import opened Wrappers

  type State(==, !new)
  type Data(!new)
  type Content(==, !new)
  type Tag(==, !new)
  type Name(==, !new)

  /** `"enter"`, or any other event type. */
  datatype EventType = EnterType | OtherType(tag: Tag)

  /** A queued event. The machine's own enter entries carry the state left; every other
      event is numbered, for the record, when it is taken from the mailbox or injected. */
  datatype Item = Enter(from: State) | Numbered(id: nat, ty: EventType, content: Content)

  predicate IsEnter(item: Item) {
    item.Enter? || item.ty.EnterType?
  }

  datatype TimerKind = StateTimer | NamedTimer(name: Name) | AnonymousTimer

  /** A running timer task and whether its cancel scope was cancelled. */
  datatype Timer = Timer(kind: TimerKind, cancelled: bool)

  type TimerId = nat

  /** `__stop__` is the action appended for `stop` and `stop_and_reply`. */
  datatype Action =
    | StopAction
    | Reply
    | Postpone
    | NextEvent(ty: EventType, content: Content)
    | StateTimeout(armed: bool)
    | Timeout(armed: bool, name: Option<Name>)
    | Hibernate
    | Unknown

  /** The shapes a callback may return; one that raises stops the machine like `Stop`. */
  datatype Result =
    | NextState(state: State, data: Data, actions: seq<Action>)
    | KeepState(data: Data, actions: seq<Action>)
    | KeepStateAndData(actions: seq<Action>)
    | Stop
    | StopAndReply(actions: seq<Action>)
    | Unexpected

  /** The fields of the machine; `timers` are the tasks of its timer group, `counter` and
      `timerCounter` the next number and scope. */
  datatype Machine = Machine(
    stateEnter: bool,
    state: State,
    data: Data,
    next: seq<Item>,
    postponed: seq<Item>,
    stateTimer: Option<TimerId>,
    namedTimers: map<Name, TimerId>,
    timers: map<TimerId, Timer>,
    counter: nat,
    timerCounter: nat)

  /** `_unpack_result` */
  function Unpack(m: Machine, r: Result): (State, Data, seq<Action>) {
    match r
    case NextState(s, d, actions) => (s, d, actions)
    case KeepState(d, actions) => (m.state, d, actions)
    case KeepStateAndData(actions) => (m.state, m.data, actions)
    case Stop => (m.state, m.data, [StopAction])
    case StopAndReply(actions) => (m.state, m.data, actions + [StopAction])
    case Unexpected => (m.state, m.data, [])
  }

  function Cancelled(timers: map<TimerId, Timer>, id: TimerId): map<TimerId, Timer> {
    if id in timers then timers[id := timers[id].(cancelled := true)] else timers
  }

  function CancelStateTimer(m: Machine): Machine {
    if m.stateTimer.None? then m
    else m.(timers := Cancelled(m.timers, m.stateTimer.value), stateTimer := None)
  }

  function CancelNamed(m: Machine, name: Name): Machine {
    if name !in m.namedTimers then m
    else m.(timers := Cancelled(m.timers, m.namedTimers[name]), namedTimers := m.namedTimers - {name})
  }

  /** `_schedule_timer`: a new task under a new scope. */
  function Schedule(m: Machine, kind: TimerKind): Machine {
    m.(timers := m.timers[m.timerCounter := Timer(kind, false)], timerCounter := m.timerCounter + 1)
  }

  /** One action other than stop; `current` is the event being handled, if any. */
  function ApplyAction(m: Machine, action: Action, current: Option<Item>): Machine {
    match action
    case Postpone => if current.Some? then m.(postponed := m.postponed + [current.value]) else m
    case NextEvent(ty, content) => m.(next := m.next + [Numbered(m.counter, ty, content)], counter := m.counter + 1)
    case StateTimeout(armed) =>
      var m1 := CancelStateTimer(m);
      if armed then Schedule(m1, StateTimer).(stateTimer := Some(m1.timerCounter)) else m1
    case Timeout(armed, Some(name)) =>
      var m1 := CancelNamed(m, name);
      if armed then Schedule(m1, NamedTimer(name)).(namedTimers := m1.namedTimers[name := m1.timerCounter]) else m1
    case Timeout(armed, None) => if armed then Schedule(m, AnonymousTimer) else m
    case _ => m
  }

  /** The `finally` of a timer task. */
  function TimerGone(m: Machine, id: TimerId): Machine {
    if id !in m.timers then m
    else
      var kind := m.timers[id].kind;
      var m1 := if m.stateTimer == Some(id) then m.(stateTimer := None) else m;
      var m2 := if kind.NamedTimer? && kind.name in m1.namedTimers && m1.namedTimers[kind.name] == id
                then m1.(namedTimers := m1.namedTimers - {kind.name}) else m1;
      m2.(timers := m2.timers - {id})
  }

  datatype Applied = Applied(machine: Machine, stopped: bool)

  /** `_apply_actions`: in order, up to the first stop. */
  function ApplyActions(m: Machine, actions: seq<Action>, current: Option<Item>): Applied
    decreases |actions|
  {
    if actions == [] then Applied(m, false)
    else if actions[0].StopAction? then Applied(m, true)
    else ApplyActions(ApplyAction(m, actions[0], current), actions[1..], current)
  }

  /** The new state of a turn: an enter callback cannot change it. */
  function NewState(m: Machine, item: Item, r: Result): State {
    if IsEnter(item) then m.state else Unpack(m, r).0
  }

  predicate Changes(m: Machine, item: Item, r: Result) {
    NewState(m, item, r) != m.state
  }

  /** `_process_gsm_event`. When an action stops the machine, the new state is never installed. */
  function Process(m: Machine, item: Item, r: Result): Applied {
    var (_, data, actions) := Unpack(m, r);
    var changed := Changes(m, item, r);
    var m1 := if changed then CancelStateTimer(m) else m;
    var applied := ApplyActions(m1, actions, Some(item));
    if applied.stopped then applied
    else
      var m2 := applied.machine.(state := NewState(m, item, r), data := data);
      Applied(if changed then Replayed(m2, m.state) else m2, false)
  }

  /** On a state change: the enter entry, the postponed events, then what was queued. */
  function Replayed(m: Machine, from: State): Machine {
    m.(next := (if m.stateEnter then [Enter(from)] else []) + m.postponed + m.next, postponed := [])
  }

  // ---------------------------------------------------------------------
  // What a list of actions does to the queues
  // ---------------------------------------------------------------------

  /** Number of postponements executed, up to the first stop. */
  function Postpones(actions: seq<Action>): nat {
    if actions == [] || actions[0].StopAction? then 0
    else (if actions[0].Postpone? then 1 else 0) + Postpones(actions[1..])
  }

  /** The events injected, numbered from `k`. */
  function Injected(actions: seq<Action>, k: nat): seq<Item> {
    if actions == [] || actions[0].StopAction? then []
    else if actions[0].NextEvent? then [Numbered(k, actions[0].ty, actions[0].content)] + Injected(actions[1..], k + 1)
    else Injected(actions[1..], k)
  }

  function Copies(item: Item, n: nat): seq<Item> {
    seq(n, _ => item)
  }

  /** One action: a postponement adds the current event, an injection numbers a new one. */
  lemma ActionOnQueues(m: Machine, action: Action, current: Option<Item>)
    ensures var m' := ApplyAction(m, action, current);
            && m'.postponed
                 == (if action.Postpone? && current.Some? then m.postponed + [current.value] else m.postponed)
            && m'.next
                 == (if action.NextEvent? then m.next + [Numbered(m.counter, action.ty, action.content)] else m.next)
            && m'.counter == (if action.NextEvent? then m.counter + 1 else m.counter)
            && m'.state == m.state && m'.data == m.data && m'.stateEnter == m.stateEnter
  {
  }

  lemma {:induction false} ActionsOnQueues(m: Machine, actions: seq<Action>, item: Item)
    ensures var m' := ApplyActions(m, actions, Some(item)).machine;
            && m'.postponed == m.postponed + Copies(item, Postpones(actions))
            && m'.next == m.next + Injected(actions, m.counter)
            && m'.counter == m.counter + |Injected(actions, m.counter)|
            && m'.state == m.state && m'.data == m.data && m'.stateEnter == m.stateEnter
    decreases |actions|
  {
    if actions == [] || actions[0].StopAction? {
      assert m.postponed + [] == m.postponed && m.next + [] == m.next;
    } else {
      ActionOnQueues(m, actions[0], Some(item));
      ActionsOnQueues(ApplyAction(m, actions[0], Some(item)), actions[1..], item);
      var k := Postpones(actions[1..]);
      assert m.postponed + [item] + Copies(item, k) == m.postponed + Copies(item, k + 1);
      if actions[0].NextEvent? {
        var injected := Numbered(m.counter, actions[0].ty, actions[0].content);
        assert m.next + [injected] + Injected(actions[1..], m.counter + 1)
            == m.next + ([injected] + Injected(actions[1..], m.counter + 1));
      }
    }
  }

  /** Injected events are numbered consecutively. */
  lemma {:induction false} InjectedNumbers(actions: seq<Action>, k: nat)
    ensures forall i :: 0 <= i < |Injected(actions, k)| ==>
              Injected(actions, k)[i].Numbered? && Injected(actions, k)[i].id == k + i
  {
    if !(actions == [] || actions[0].StopAction?) {
      InjectedNumbers(actions[1..], if actions[0].NextEvent? then k + 1 else k);
    }
  }
}
