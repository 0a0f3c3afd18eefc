/** When the state machine stops, and how it starts. */
module MachineStops {
  import opened Seqs
  import opened Wrappers

  import opened MachineModel
  import opened MachineRuns
  import opened MachineTimers

  // ---------------------------------------------------------------------
  // One turn
  // ---------------------------------------------------------------------

  predicate HasStop(actions: seq<Action>) {
    exists i :: 0 <= i < |actions| && actions[i].StopAction?
  }

  /** The callback's answer asks the machine to stop. */
  predicate AsksToStop(r: Result) {
    match r
    case NextState(_, _, actions) => HasStop(actions)
    case KeepState(_, actions) => HasStop(actions)
    case KeepStateAndData(actions) => HasStop(actions)
    case Stop => true
    case StopAndReply(_) => true
    case Unexpected => false
  }

  lemma {:induction false} ActionsStop(m: Machine, actions: seq<Action>, current: Option<Item>)
    ensures ApplyActions(m, actions, current).stopped <==> HasStop(actions)
    decreases |actions|
  {
    if actions != [] && !actions[0].StopAction? {
      ActionsStop(ApplyAction(m, actions[0], current), actions[1..], current);
      assert forall i :: 0 <= i < |actions| - 1 ==> actions[1..][i] == actions[i + 1];
      if HasStop(actions) {
        var i :| 0 <= i < |actions| && actions[i].StopAction?;
        assert actions[1..][i - 1].StopAction?;
      }
    }
  }

  /** Handling an event stops the machine if and only if the answer asks for it. */
  lemma StopsExactlyWhen(m: Machine, item: Item, r: Result)
    ensures Process(m, item, r).stopped <==> AsksToStop(r)
  {
    var actions := Unpack(m, r).2;
    ActionsStop(if Changes(m, item, r) then CancelStateTimer(m) else m, actions, Some(item));
    if r.StopAndReply? {
      assert actions[|r.actions|].StopAction?;
    } else if r.Stop? {
      assert actions[0].StopAction?;
    }
  }

  /** The next turn stops the machine: it handles an event and is asked to, or it takes a
      `Stop` from the mailbox. */
  predicate StopsNext(run: Run, r: Result) {
    if run.machine.next != [] then AsksToStop(r)
    else run.mailbox != [] && (run.mailbox[0].StopMessage? || (run.mailbox[0].EventMessage? && AsksToStop(r)))
  }

  lemma TurnStopsExactlyWhen(run: Run, r: Result)
    requires !run.stopped
    ensures TakeTurn(run, r).stopped <==> StopsNext(run, r)
  {
    var m := run.machine;
    if m.next != [] {
      StopsExactlyWhen(m.(next := m.next[1..]), m.next[0], r);
    } else if run.mailbox != [] && run.mailbox[0].EventMessage? {
      var message := run.mailbox[0];
      StopsExactlyWhen(m.(counter := m.counter + 1), Numbered(m.counter, message.ty, message.content), r);
    }
  }

  // ---------------------------------------------------------------------
  // Runs
  // ---------------------------------------------------------------------

  /** At step `k` of the run the machine takes a turn that stops it. */
  predicate StopsAt(run: Run, steps: seq<Step>, k: nat)
    requires k < |steps|
  {
    var before := After(run, steps[..k]);
    !before.stopped && steps[k].Turn? && StopsNext(before, steps[k].result)
  }

  lemma {:induction false} AfterLast(run: Run, steps: seq<Step>, step: Step)
    ensures After(run, steps + [step]) == Next(After(run, steps), step)
    decreases |steps|
  {
    if steps == [] {
      assert (steps + [step])[1..] == [];
    } else {
      ConcatHead(steps, [step]);
      AfterLast(Next(run, steps[0]), steps[1..], step);
    }
  }

  lemma OneMore(run: Run, steps: seq<Step>)
    requires steps != []
    ensures var front, last := steps[..|steps| - 1], |steps| - 1;
            && After(run, steps) == Next(After(run, front), steps[last])
            && (After(run, steps).stopped <==> After(run, front).stopped || StopsAt(run, steps, last))
  {
    var front, last := steps[..|steps| - 1], |steps| - 1;
    assert steps == front + [steps[last]];
    AfterLast(run, front, steps[last]);
    var before := After(run, front);
    if !before.stopped && steps[last].Turn? {
      TurnStopsExactlyWhen(before, steps[last].result);
    }
  }

  /** A run is over if and only if it was from the start or one of its turns stopped it. */
  lemma {:induction false} RunStopsExactlyWhen(run: Run, steps: seq<Step>)
    ensures After(run, steps).stopped <==> run.stopped || exists k :: 0 <= k < |steps| && StopsAt(run, steps, k)
    decreases |steps|
  {
    if steps != [] {
      var front, last := steps[..|steps| - 1], |steps| - 1;
      OneMore(run, steps);
      RunStopsExactlyWhen(run, front);
      forall k | 0 <= k < last ensures StopsAt(run, front, k) <==> StopsAt(run, steps, k) {
        assert front[..k] == steps[..k];
      }
      if exists k :: 0 <= k < |steps| && StopsAt(run, steps, k) {
        var k :| 0 <= k < |steps| && StopsAt(run, steps, k);
        assert k < last ==> StopsAt(run, front, k);
      }
    }
  }

  /** Nothing happens to a machine that has stopped. */
  lemma {:induction false} StoppedStays(run: Run, steps: seq<Step>)
    requires run.stopped
    ensures After(run, steps) == run
    decreases |steps|
  {
    if steps != [] {
      StoppedStays(run, steps[1..]);
    }
  }

  // ---------------------------------------------------------------------
  // The start
  // ---------------------------------------------------------------------

  /** Actions applied with no current event: nothing can be postponed. */
  lemma {:induction false} InitActionsOnQueues(m: Machine, actions: seq<Action>)
    ensures var m' := ApplyActions(m, actions, None).machine;
            && m'.postponed == m.postponed
            && m'.next == m.next + Injected(actions, m.counter)
            && m'.counter == m.counter + |Injected(actions, m.counter)|
            && m'.state == m.state && m'.data == m.data && m'.stateEnter == m.stateEnter
    decreases |actions|
  {
    if actions == [] || actions[0].StopAction? {
      Units(m.next);
    } else {
      ActionOnQueues(m, actions[0], None);
      InitActionsOnQueues(ApplyAction(m, actions[0], None), actions[1..]);
      if actions[0].NextEvent? {
        var injected := Numbered(m.counter, actions[0].ty, actions[0].content);
        Assoc(m.next, [injected], Injected(actions[1..], m.counter + 1));
      }
    }
  }

  /** The actions in an answer, with none for a state machine without enter callbacks. */
  function EnterActions(stateEnter: bool, r: Result): seq<Action> {
    if !stateEnter then []
    else
      match r
      case NextState(_, _, actions) => actions
      case KeepState(_, actions) => actions
      case KeepStateAndData(actions) => actions
      case _ => []
  }

  /** A machine stops before its first turn exactly if its enter callback or the actions of
      `init` ask for it. Otherwise the queue holds the events injected by the enter callback
      followed by those of `init`; only the enter entry can have been postponed; and the
      state is the initial one. */
  lemma StartsWith(stateEnter: bool, state: State, data: Data, r: Result, init: seq<Action>, mailbox: seq<Message>)
    ensures var run, first := Started(stateEnter, state, data, r, init, mailbox), EnterActions(stateEnter, r);
            && (run.stopped <==> (stateEnter && AsksToStop(r)) || HasStop(init))
            && run.mailbox == mailbox
            && (!run.stopped ==>
                  && run.machine.next == Injected(first, 0) + Injected(init, |Injected(first, 0)|)
                  && run.machine.counter == |Injected(first, 0)| + |Injected(init, |Injected(first, 0)|)|
                  && run.machine.postponed == Copies(Enter(state), Postpones(first))
                  && run.machine.state == state
                  && run.machine.data == if stateEnter && (r.NextState? || r.KeepState?) then r.data else data)
  {
    var blank := Machine(stateEnter, state, data, [], [], None, map[], map[], 0, 0);
    if stateEnter {
      StopsExactlyWhen(blank, Enter(state), r);
      if !AsksToStop(r) {
        EnterCallback(blank, r);
      }
    }
    var entered := if stateEnter then Process(blank, Enter(state), r) else Applied(blank, false);
    if !entered.stopped {
      ActionsStop(entered.machine, init, None);
      InitActionsOnQueues(entered.machine, init);
    }
  }

  lemma EnterCallback(m: Machine, r: Result)
    requires m.next == [] && m.postponed == [] && m.counter == 0 && !AsksToStop(r)
    ensures var first, m' := EnterActions(true, r), Process(m, Enter(m.state), r).machine;
            && m'.next == Injected(first, 0) && m'.counter == |Injected(first, 0)|
            && m'.postponed == Copies(Enter(m.state), Postpones(first)) && m'.state == m.state
            && m'.data == if r.NextState? || r.KeepState? then r.data else m.data
  {
    var first := EnterActions(true, r);
    StopsExactlyWhen(m, Enter(m.state), r);
    ActionsOnQueues(m, first, Enter(m.state));
    Units(Injected(first, 0));
    Units(Copies(Enter(m.state), Postpones(first)));
  }

  lemma {:induction false} LastForConcat(a: seq<Action>, b: seq<Action>, kind: TimerKind)
    requires !HasStop(a)
    ensures LastFor(a + b, kind) == if LastFor(b, kind).Some? then LastFor(b, kind) else LastFor(a, kind)
  {
    if a == [] {
      Units(b);
    } else {
      ConcatHead(a, b);
      assert !a[0].StopAction?;
      assert forall i :: 0 <= i < |a| - 1 ==> a[1..][i] == a[i + 1];
      LastForConcat(a[1..], b, kind);
    }
  }

  /** The timers at the start: each slot is decided by the last action of its kind, those of
      `init` coming after those of the enter callback. */
  lemma StartsTimers(stateEnter: bool, state: State, data: Data, r: Result, init: seq<Action>,
                     mailbox: seq<Message>, kind: TimerKind)
    requires !Started(stateEnter, state, data, r, init, mailbox).stopped && !kind.AnonymousTimer?
    ensures var m := Started(stateEnter, state, data, r, init, mailbox).machine;
            var last := LastFor(EnterActions(stateEnter, r) + init, kind);
            Slot(m, kind).Some? <==> last.Some? && Arms(last.value)
  {
    var blank := Machine(stateEnter, state, data, [], [], None, map[], map[], 0, 0);
    var first := EnterActions(stateEnter, r);
    StartsWith(stateEnter, state, data, r, init, mailbox);
    assert !HasStop(first);
    LastForConcat(first, init, kind);
    var entered := if stateEnter then Process(blank, Enter(state), r) else Applied(blank, false);
    ProcessTimers(blank, Enter(state), r);
    assert SlotAfter(blank, entered.machine, LastFor(first, kind), kind);
    ActionsKeepTidy(entered.machine, init, None);
    var started := Started(stateEnter, state, data, r, init, mailbox).machine;
    assert SlotAfter(entered.machine, started, LastFor(init, kind), kind);
  }

  // ---------------------------------------------------------------------
  // Unnamed timers
  // ---------------------------------------------------------------------

  /** The live timers without a name. */
  ghost function Unnamed(m: Machine): set<TimerId> {
    set id | id in m.timers && m.timers[id] == Timer(AnonymousTimer, false)
  }

  predicate ArmsUnnamed(action: Action) {
    action.Timeout? && action.name.None? && action.armed
  }

  /** How many unnamed timers a list of actions arms before any stop. */
  function UnnamedArmed(actions: seq<Action>): nat {
    if actions == [] || actions[0].StopAction? then 0
    else (if ArmsUnnamed(actions[0]) then 1 else 0) + UnnamedArmed(actions[1..])
  }

  /** Timers in a slot have a name, or are for states. */
  lemma CancelSparesUnnamed(m: Machine)
    requires Tidy(m)
    ensures Unnamed(CancelStateTimer(m)) == Unnamed(m)
  {
    assert SlotHolds(m, StateTimer);
    if m.stateTimer.Some? {
      assert Live(m, m.stateTimer.value, StateTimer);
    }
  }

  lemma CancelNamedSparesUnnamed(m: Machine, name: Name)
    requires Tidy(m)
    ensures Unnamed(CancelNamed(m, name)) == Unnamed(m)
  {
    assert SlotHolds(m, NamedTimer(name));
    if name in m.namedTimers {
      assert Live(m, m.namedTimers[name], NamedTimer(name));
    }
  }

  lemma ScheduleUnnamed(m: Machine, kind: TimerKind, m': Machine)
    requires Tidy(m) && m'.timers == Schedule(m, kind).timers
    ensures Unnamed(m') == Unnamed(m) + if kind.AnonymousTimer? then {m.timerCounter} else {}
  {
    assert m.timerCounter !in m.timers;
  }

  lemma ActionUnnamed(m: Machine, action: Action, current: Option<Item>)
    requires Tidy(m)
    ensures var m' := ApplyAction(m, action, current);
            Unnamed(m') == Unnamed(m) + if ArmsUnnamed(action) then {m.timerCounter} else {}
  {
    var m' := ApplyAction(m, action, current);
    match action
    case StateTimeout(armed) =>
      CancelSparesUnnamed(m);
      CancelKeepsTidy(m);
      if armed { ScheduleUnnamed(CancelStateTimer(m), StateTimer, m'); }
    case Timeout(armed, Some(name)) =>
      CancelNamedSparesUnnamed(m, name);
      CancelNamedKeepsTidy(m, name);
      if armed { ScheduleUnnamed(CancelNamed(m, name), NamedTimer(name), m'); }
    case Timeout(armed, None) =>
      if armed { ScheduleUnnamed(m, AnonymousTimer, m'); }
    case _ => assert m'.timers == m.timers;
  }

  lemma {:induction false} ActionsUnnamed(m: Machine, actions: seq<Action>, current: Option<Item>)
    requires Tidy(m)
    ensures var m' := ApplyActions(m, actions, current).machine;
            Unnamed(m) <= Unnamed(m') && |Unnamed(m')| == |Unnamed(m)| + UnnamedArmed(actions)
    decreases |actions|
  {
    if actions != [] && !actions[0].StopAction? {
      var m1 := ApplyAction(m, actions[0], current);
      ActionUnnamed(m, actions[0], current);
      assert m.timerCounter !in Unnamed(m);
      ApplyKeepsTidy(m, actions[0], current);
      ActionsUnnamed(m1, actions[1..], current);
    }
  }

  lemma ProcessUnnamed(m: Machine, item: Item, r: Result)
    requires Tidy(m)
    ensures var m' := Process(m, item, r).machine;
            Unnamed(m) <= Unnamed(m') && |Unnamed(m')| == |Unnamed(m)| + UnnamedArmed(ActionsOf(r))
  {
    var m1 := if Changes(m, item, r) then CancelStateTimer(m) else m;
    CancelKeepsTidy(m);
    CancelSparesUnnamed(m);
    ActionsUnnamed(m1, ActionsOf(r), Some(item));
    assert Unnamed(Process(m, item, r).machine) == Unnamed(ApplyActions(m1, ActionsOf(r), Some(item)).machine);
  }

  /** What a step arms, and whether it ends a live unnamed timer. */
  ghost function UnnamedMade(run: Run, step: Step): nat {
    if step.Turn? && !run.stopped && TakesItem(run) then UnnamedArmed(ActionsOf(step.result)) else 0
  }

  predicate TakesItem(run: Run) {
    run.machine.next != [] || (run.mailbox != [] && run.mailbox[0].EventMessage?)
  }

  ghost predicate EndsUnnamed(run: Run, step: Step) {
    step.TimerEnds? && !run.stopped && step.timer in Unnamed(run.machine)
  }

  lemma TakenUnnamed(m: Machine, taken: Machine, item: Item, r: Result)
    requires Tidy(m) && taken == m.(next := taken.next, counter := taken.counter)
    ensures var after := Unnamed(Process(taken, item, r).machine);
            Unnamed(m) <= after && |after| == |Unnamed(m)| + UnnamedArmed(ActionsOf(r))
  {
    SameTimers(m, taken);
    assert Unnamed(taken) == Unnamed(m);
    ProcessUnnamed(taken, item, r);
  }

  lemma TurnUnnamed(run: Run, r: Result)
    requires Tidy(run.machine)
    ensures var before, after := Unnamed(run.machine), Unnamed(TakeTurn(run, r).machine);
            before <= after && |after| == |before| + if TakesItem(run) then UnnamedArmed(ActionsOf(r)) else 0
  {
    var m, m' := run.machine, TakeTurn(run, r).machine;
    if m.next != [] {
      var taken := m.(next := m.next[1..]);
      assert m' == Process(taken, m.next[0], r).machine;
      TakenUnnamed(m, taken, m.next[0], r);
    } else if run.mailbox != [] && run.mailbox[0].EventMessage? {
      var taken := m.(counter := m.counter + 1);
      var item := Numbered(m.counter, run.mailbox[0].ty, run.mailbox[0].content);
      assert m' == Process(taken, item, r).machine;
      TakenUnnamed(m, taken, item, r);
    } else {
      assert m' == m;
    }
  }

  lemma NextUnnamed(run: Run, step: Step)
    requires Tidy(run.machine)
    ensures var before, after := Unnamed(run.machine), Unnamed(Next(run, step).machine);
            && (forall id :: id in before && !(step.TimerEnds? && step.timer == id) ==> id in after)
            && |after| == |before| + UnnamedMade(run, step) - (if EndsUnnamed(run, step) then 1 else 0)
  {
    if !run.stopped {
      match step
      case Arrive(_) =>
      case TimerEnds(id, _) => assert Unnamed(Next(run, step).machine) == Unnamed(run.machine) - {id};
      case Turn(r) => TurnUnnamed(run, r);
    }
  }

  ghost function UnnamedBalance(run: Run, steps: seq<Step>): int
    decreases |steps|
  {
    if steps == [] then 0
    else
      UnnamedMade(run, steps[0]) - (if EndsUnnamed(run, steps[0]) then 1 else 0)
      + UnnamedBalance(Next(run, steps[0]), steps[1..])
  }

  /** Over every run each unnamed timeout is one more live timer until its own task ends:
      the live ones are those armed less those that ended. */
  lemma {:induction false} UnnamedTimersAdd(run: Run, steps: seq<Step>)
    requires Tidy(run.machine)
    ensures |Unnamed(After(run, steps).machine)| == |Unnamed(run.machine)| + UnnamedBalance(run, steps)
    decreases |steps|
  {
    if steps != [] {
      NextUnnamed(run, steps[0]);
      NextTidy(run, steps[0]);
      UnnamedTimersAdd(Next(run, steps[0]), steps[1..]);
    }
  }
}
