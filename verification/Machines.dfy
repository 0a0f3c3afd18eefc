/** The state machine as an object: its queues and timers updated in place, each method
    proved against the function whose runs the theorems are about. */
module Machines {
  import opened Wrappers

  import opened MachineModel
  import Runs = MachineRuns

  class GenStateMachine {
    const stateEnter: bool
    var state: State
    var data: Data
    var nextEvents: seq<Item>
    var postponed: seq<Item>
    var stateTimeoutScope: Option<TimerId>
    var namedTimers: map<Name, TimerId>
    var timers: map<TimerId, Timer>
    var counter: nat
    var timerCounter: nat

    function Value(): Machine
      reads this
    {
      Machine(stateEnter, state, data, nextEvents, postponed, stateTimeoutScope, namedTimers, timers, counter,
              timerCounter)
    }

    constructor (stateEnter: bool, state: State, data: Data)
      ensures Value() == Machine(stateEnter, state, data, [], [], None, map[], map[], 0, 0)
    {
      this.stateEnter := stateEnter;
      this.state, this.data := state, data;
      nextEvents, postponed := [], [];
      stateTimeoutScope, namedTimers, timers := None, map[], map[];
      counter, timerCounter := 0, 0;
    }

    method CancelScope(id: TimerId)
      modifies `timers
      ensures timers == Cancelled(old(timers), id)
    {
      if id in timers {
        timers := timers[id := timers[id].(cancelled := true)];
      }
    }

    method ScheduleTimer(kind: TimerKind) returns (id: TimerId)
      modifies `timers, `timerCounter
      ensures id == old(timerCounter)
      ensures Value() == Schedule(old(Value()), kind)
    {
      id := timerCounter;
      timers := timers[id := Timer(kind, false)];
      timerCounter := timerCounter + 1;
    }

    /** One action other than stop. */
    method Apply(action: Action, current: Option<Item>)
      modifies this
      ensures Value() == ApplyAction(old(Value()), action, current)
    {
      match action
      case Postpone =>
        if current.Some? {
          postponed := postponed + [current.value];
        }
      case NextEvent(ty, content) =>
        nextEvents := nextEvents + [Numbered(counter, ty, content)];
        counter := counter + 1;
      case StateTimeout(armed) =>
        if stateTimeoutScope.Some? {
          CancelScope(stateTimeoutScope.value);
          stateTimeoutScope := None;
        }
        if armed {
          var scope := ScheduleTimer(StateTimer);
          stateTimeoutScope := Some(scope);
        }
      case Timeout(armed, Some(name)) =>
        if name in namedTimers {
          var existing := namedTimers[name];
          namedTimers := namedTimers - {name};
          CancelScope(existing);
        }
        if armed {
          var scope := ScheduleTimer(NamedTimer(name));
          namedTimers := namedTimers[name := scope];
        }
      case Timeout(armed, None) =>
        if armed {
          var scope := ScheduleTimer(AnonymousTimer);
        }
      case _ =>
    }

    method ApplyAll(actions: seq<Action>, current: Option<Item>) returns (stopped: bool)
      modifies this
      ensures Applied(Value(), stopped) == ApplyActions(old(Value()), actions, current)
    {
      var i := 0;
      stopped := false;
      while i < |actions| && !stopped
        invariant 0 <= i <= |actions|
        invariant ApplyActions(old(Value()), actions, current)
               == if stopped then Applied(Value(), true) else ApplyActions(Value(), actions[i..], current)
        decreases |actions| - i, !stopped
      {
        assert actions[i..][0] == actions[i] && actions[i..][1..] == actions[i + 1..];
        if actions[i].StopAction? {
          stopped := true;
        } else {
          Apply(actions[i], current);
          i := i + 1;
        }
      }
    }

    /** Puts `items` before the queue, last one first. */
    method PushFront(items: seq<Item>)
      modifies `nextEvents
      ensures nextEvents == items + old(nextEvents)
    {
      var i := |items|;
      while 0 < i
        invariant 0 <= i <= |items|
        invariant nextEvents == items[i..] + old(nextEvents)
      {
        i := i - 1;
        nextEvents := [items[i]] + nextEvents;
        assert items[i..] == [items[i]] + items[i + 1..];
      }
    }

    /** `_process_gsm_event`, the callback having answered `r`. */
    method ProcessEvent(item: Item, r: Result) returns (stopped: bool)
      modifies this
      ensures Applied(Value(), stopped) == Process(old(Value()), item, r)
    {
      var before := state;
      var (after, newData, actions) := Unpack(Value(), r);
      if IsEnter(item) && after != before {
        after := before;
      }
      if after != before && stateTimeoutScope.Some? {
        CancelScope(stateTimeoutScope.value);
        stateTimeoutScope := None;
      }
      stopped := ApplyAll(actions, Some(item));
      if stopped {
        return;
      }
      state, data := after, newData;
      if after != before {
        Replay(before);
      }
    }

    /** On a state change the postponed events come back, after the enter entry. */
    method Replay(before: State)
      modifies `nextEvents, `postponed
      ensures Value() == Replayed(old(Value()), before)
    {
      var toPrepend := (if stateEnter then [Enter(before)] else []) + postponed;
      postponed := [];
      PushFront(toPrepend);
    }

    /** The loop takes a queued event, or else the next message of `mailbox`; the callback
        answers `r`. */
    method Turn(mailbox: seq<Runs.Message>, r: Result) returns (rest: seq<Runs.Message>, stopped: bool)
      modifies this
      ensures var run := Runs.TakeTurn(Runs.Run(old(Value()), mailbox, false, {}, [], 0, None), r);
              Value() == run.machine && rest == run.mailbox && stopped == run.stopped
    {
      rest, stopped := mailbox, false;
      if nextEvents != [] {
        var item := nextEvents[0];
        nextEvents := nextEvents[1..];
        stopped := ProcessEvent(item, r);
      } else if mailbox != [] {
        rest := mailbox[1..];
        match mailbox[0]
        case StopMessage => stopped := true;
        case OtherMessage =>
        case EventMessage(ty, content) =>
          var item := Numbered(counter, ty, content);
          counter := counter + 1;
          stopped := ProcessEvent(item, r);
      }
    }

    /** The `finally` of a timer task. */
    method EndTimer(id: TimerId)
      requires id in timers
      modifies this
      ensures Value() == TimerGone(old(Value()), id)
    {
      var kind := timers[id].kind;
      if stateTimeoutScope == Some(id) {
        stateTimeoutScope := None;
      }
      if kind.NamedTimer? && kind.name in namedTimers && namedTimers[kind.name] == id {
        namedTimers := namedTimers - {kind.name};
      }
      timers := timers - {id};
    }

    /** What the loop does before its first turn. */
    method Start(r: Result, init: seq<Action>, ghost mailbox: seq<Runs.Message>) returns (stopped: bool)
      requires Value() == Machine(stateEnter, state, data, [], [], None, map[], map[], 0, 0)
      modifies this
      ensures var run := Runs.Started(stateEnter, old(state), old(data), r, init, mailbox);
              Value() == run.machine && stopped == run.stopped
    {
      stopped := false;
      if stateEnter {
        stopped := ProcessEvent(Enter(state), r);
      }
      if !stopped {
        stopped := ApplyAll(init, None);
      }
    }
  }
}
