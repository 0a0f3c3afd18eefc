/** Timers over every run: at most one live state timer and one live timer per name, each
    held by its slot; replacing, cancelling, firing and cleaning up never mix them up. */
module MachineTimers {
  import opened Wrappers

  import opened MachineModel
  import opened MachineRuns

  ghost predicate Live(m: Machine, id: TimerId, kind: TimerKind) {
    id in m.timers && m.timers[id] == Timer(kind, false)
  }

  /** The scope in the slot for state timers, or in the slot of a name. */
  function Slot(m: Machine, kind: TimerKind): Option<TimerId> {
    match kind
    case StateTimer => m.stateTimer
    case NamedTimer(name) => if name in m.namedTimers then Some(m.namedTimers[name]) else None
    case AnonymousTimer => None
  }

  /** A slot holds the one live timer of its kind, or there is none. */
  ghost predicate SlotHolds(m: Machine, kind: TimerKind) {
    forall id: TimerId :: Live(m, id, kind) <==> Slot(m, kind) == Some(id)
  }

  ghost predicate Tidy(m: Machine) {
    && (forall kind: TimerKind :: !kind.AnonymousTimer? ==> SlotHolds(m, kind))
    && (forall id: TimerId :: id in m.timers ==> id < m.timerCounter)
  }

  function KindOf(action: Action): Option<TimerKind> {
    match action
    case StateTimeout(_) => Some(StateTimer)
    case Timeout(_, Some(name)) => Some(NamedTimer(name))
    case _ => None
  }

  function Arms(action: Action): bool {
    (action.StateTimeout? || action.Timeout?) && action.armed
  }

  /** An action changes only the slot of its own kind, and there leaves a new timer or none. */
  lemma ApplyKeepsTidy(m: Machine, action: Action, current: Option<Item>)
    requires Tidy(m)
    ensures var m' := ApplyAction(m, action, current);
            && Tidy(m')
            && m.timerCounter <= m'.timerCounter
            && (forall kind: TimerKind :: Slot(m', kind) ==
                  if KindOf(action) != Some(kind) then Slot(m, kind)
                  else if Arms(action) then Some(m.timerCounter) else None)
  {
    var m' := ApplyAction(m, action, current);
    match action
    case StateTimeout(armed) =>
      CancelKeepsTidy(m);
      if armed { ScheduleKeepsTidy(CancelStateTimer(m), StateTimer, m'); }
    case Timeout(armed, Some(name)) =>
      CancelNamedKeepsTidy(m, name);
      if armed { ScheduleKeepsTidy(CancelNamed(m, name), NamedTimer(name), m'); }
    case Timeout(armed, None) =>
      if armed { ScheduleKeepsTidy(m, AnonymousTimer, m'); }
    case _ =>
      assert m' == m.(postponed := m'.postponed, next := m'.next, counter := m'.counter);
      SameTimers(m, m');
  }

  lemma SameTimers(m: Machine, m': Machine)
    requires Tidy(m)
    requires m'.timers == m.timers && m'.stateTimer == m.stateTimer && m'.namedTimers == m.namedTimers
    requires m'.timerCounter == m.timerCounter
    ensures Tidy(m') && forall kind: TimerKind :: Slot(m', kind) == Slot(m, kind)
  {
    forall kind: TimerKind | !kind.AnonymousTimer? ensures SlotHolds(m', kind) {
      assert SlotHolds(m, kind);
      assert forall id: TimerId :: Live(m', id, kind) <==> Live(m, id, kind);
    }
  }

  lemma CancelKeepsTidy(m: Machine)
    requires Tidy(m)
    ensures var m' := CancelStateTimer(m);
            && Tidy(m') && m'.timerCounter == m.timerCounter
            && forall kind: TimerKind :: Slot(m', kind) == if kind.StateTimer? then None else Slot(m, kind)
  {
    var m' := CancelStateTimer(m);
    assert SlotHolds(m, StateTimer);
    forall kind: TimerKind | !kind.AnonymousTimer? ensures SlotHolds(m', kind) {
      assert SlotHolds(m, kind);
      forall id: TimerId ensures Live(m', id, kind) <==> Slot(m', kind) == Some(id) {
        assert Live(m, id, kind) <==> Slot(m, kind) == Some(id);
        if m.stateTimer.Some? { assert Live(m, m.stateTimer.value, StateTimer); }
      }
    }
  }

  lemma CancelNamedKeepsTidy(m: Machine, name: Name)
    requires Tidy(m)
    ensures var m' := CancelNamed(m, name);
            && Tidy(m') && m'.timerCounter == m.timerCounter
            && forall kind: TimerKind :: Slot(m', kind) == if kind == NamedTimer(name) then None else Slot(m, kind)
  {
    var m' := CancelNamed(m, name);
    assert SlotHolds(m, NamedTimer(name));
    forall kind: TimerKind | !kind.AnonymousTimer? ensures SlotHolds(m', kind) {
      assert SlotHolds(m, kind);
      forall id: TimerId ensures Live(m', id, kind) <==> Slot(m', kind) == Some(id) {
        assert Live(m, id, kind) <==> Slot(m, kind) == Some(id);
        if name in m.namedTimers { assert Live(m, m.namedTimers[name], NamedTimer(name)); }
      }
    }
  }

  /** A new timer put into its own, empty slot. */
  lemma ScheduleKeepsTidy(m: Machine, kind: TimerKind, m': Machine)
    requires Tidy(m) && Slot(m, kind).None?
    requires var m1 := Schedule(m, kind);
             m' == match kind
                   case StateTimer => m1.(stateTimer := Some(m.timerCounter))
                   case NamedTimer(name) => m1.(namedTimers := m.namedTimers[name := m.timerCounter])
                   case AnonymousTimer => m1
    ensures Tidy(m') && m'.timerCounter == m.timerCounter + 1
    ensures forall other ::
      Slot(m', other) == if other == kind && !kind.AnonymousTimer? then Some(m.timerCounter) else Slot(m, other)
  {
    forall other: TimerKind | !other.AnonymousTimer? ensures SlotHolds(m', other) {
      assert SlotHolds(m, other);
      forall id: TimerId ensures Live(m', id, other) <==> Slot(m', other) == Some(id) {
        assert Live(m, id, other) <==> Slot(m, other) == Some(id);
        assert Live(m, m.timerCounter, other) <==> Slot(m, other) == Some(m.timerCounter);
      }
    }
  }

  /** The last action of the list, before any stop, that concerns timers of `kind`. */
  function LastFor(actions: seq<Action>, kind: TimerKind): Option<Action> {
    if actions == [] || actions[0].StopAction? then None
    else
      var later := LastFor(actions[1..], kind);
      if later.Some? then later
      else if KindOf(actions[0]) == Some(kind) then Some(actions[0])
      else None
  }

  /** Only the last action of its kind decides a slot: it holds a timer armed by this very
      list, or nothing; with no such action it is as before. */
  lemma {:induction false} ActionsKeepTidy(m: Machine, actions: seq<Action>, current: Option<Item>)
    requires Tidy(m)
    ensures var m' := ApplyActions(m, actions, current).machine;
            && Tidy(m')
            && m.timerCounter <= m'.timerCounter
            && forall kind: TimerKind :: SlotAfter(m, m', LastFor(actions, kind), kind)
    decreases |actions|
  {
    var m' := ApplyActions(m, actions, current).machine;
    if actions == [] || actions[0].StopAction? {
    } else {
      var m1 := ApplyAction(m, actions[0], current);
      ApplyKeepsTidy(m, actions[0], current);
      ActionsKeepTidy(m1, actions[1..], current);
      forall kind: TimerKind ensures SlotAfter(m, m', LastFor(actions, kind), kind) {
        assert SlotAfter(m1, m', LastFor(actions[1..], kind), kind);
      }
    }
  }

  ghost predicate SlotAfter(m: Machine, m': Machine, last: Option<Action>, kind: TimerKind) {
    match last
    case None => Slot(m', kind) == Slot(m, kind)
    case Some(action) =>
      if Arms(action) then Slot(m', kind).Some? && m.timerCounter <= Slot(m', kind).value
      else Slot(m', kind).None?
  }

  /** A turn: as its actions say, except that a state change first empties the slot for
      state timers. So a changed state is entered with a live state timer only when this
      very turn armed it. */
  lemma ProcessTimers(m: Machine, item: Item, r: Result)
    requires Tidy(m)
    ensures var m' := Process(m, item, r).machine;
            && Tidy(m')
            && (forall kind: TimerKind ::
                 !(kind.StateTimer? && Changes(m, item, r)) ==> SlotAfter(m, m', LastFor(ActionsOf(r), kind), kind))
            && (Changes(m, item, r) ==>
                  var last := LastFor(ActionsOf(r), StateTimer);
                  && (m'.stateTimer.Some? <==> last.Some? && Arms(last.value))
                  && (forall id: TimerId :: id < m.timerCounter ==> !Live(m', id, StateTimer)))
  {
    var changed := Changes(m, item, r);
    var m1 := if changed then CancelStateTimer(m) else m;
    CancelKeepsTidy(m);
    ActionsKeepTidy(m1, ActionsOf(r), Some(item));
    var m2 := ApplyActions(m1, ActionsOf(r), Some(item)).machine;
    var m' := Process(m, item, r).machine;
    SameTimers(m2, m');
    forall kind: TimerKind | !(kind.StateTimer? && changed)
      ensures SlotAfter(m, m', LastFor(ActionsOf(r), kind), kind)
    {
      assert SlotAfter(m1, m2, LastFor(ActionsOf(r), kind), kind);
    }
    if changed {
      assert SlotAfter(m1, m2, LastFor(ActionsOf(r), StateTimer), StateTimer);
      assert SlotHolds(m', StateTimer);
    }
  }

  /** When a timer task ends, a slot is emptied exactly if it held that timer: the clean-up
      of a superseded or cancelled timer leaves its replacement in place. */
  lemma CleanUp(m: Machine, id: TimerId)
    requires Tidy(m) && id in m.timers
    ensures var m' := TimerGone(m, id);
            && Tidy(m') && id !in m'.timers
            && (forall kind: TimerKind :: Slot(m', kind) == if Live(m, id, kind) then None else Slot(m, kind))
            && (forall other: TimerId, kind: TimerKind ::
                 other != id ==> (Live(m', other, kind) <==> Live(m, other, kind)))
  {
    var m' := TimerGone(m, id);
    forall kind: TimerKind ensures Slot(m', kind) == if Live(m, id, kind) then None else Slot(m, kind) {
      if !kind.AnonymousTimer? {
        assert SlotHolds(m, kind);
        assert Live(m, id, kind) <==> Slot(m, kind) == Some(id);
      }
    }
    forall kind: TimerKind | !kind.AnonymousTimer? ensures SlotHolds(m', kind) {
      assert SlotHolds(m, kind);
      forall other: TimerId ensures Live(m', other, kind) <==> Slot(m', kind) == Some(other) {
        assert Live(m, other, kind) <==> Slot(m, kind) == Some(other);
      }
    }
  }

  // ---------------------------------------------------------------------
  // Whole runs
  // ---------------------------------------------------------------------

  lemma NextTidy(run: Run, step: Step)
    requires Tidy(run.machine)
    ensures Tidy(Next(run, step).machine)
  {
    var m := run.machine;
    match step
    case Arrive(_) =>
    case TimerEnds(id, _) => if id in m.timers { CleanUp(m, id); }
    case Turn(r) =>
      if m.next != [] {
        var taken := m.(next := m.next[1..]);
        SameTimers(m, taken);
        ProcessTimers(taken, m.next[0], r);
      } else if run.mailbox != [] && run.mailbox[0].EventMessage? {
        var taken := m.(counter := m.counter + 1);
        SameTimers(m, taken);
        ProcessTimers(taken, Numbered(m.counter, run.mailbox[0].ty, run.mailbox[0].content), r);
      }
  }

  lemma {:induction false} RunTidy(run: Run, steps: seq<Step>)
    requires Tidy(run.machine)
    ensures Tidy(After(run, steps).machine)
    decreases |steps|
  {
    if steps != [] {
      NextTidy(run, steps[0]);
      RunTidy(Next(run, steps[0]), steps[1..]);
    }
  }

  /** In every run, of all the timer tasks alive, the uncancelled one for states is exactly
      the one in `_state_timeout_scope`, and the uncancelled one for a name exactly the one
      in `_named_timers`. */
  lemma TimersReplaced(stateEnter: bool, state: State, data: Data, r: Result, init: seq<Action>, mailbox: seq<Message>,
                       steps: seq<Step>)
    ensures var m := After(Started(stateEnter, state, data, r, init, mailbox), steps).machine;
            forall id: TimerId, kind: TimerKind ::
              !kind.AnonymousTimer? ==> (Live(m, id, kind) <==> Slot(m, kind) == Some(id))
  {
    var blank := Machine(stateEnter, state, data, [], [], None, map[], map[], 0, 0);
    var entered := if stateEnter then Process(blank, Enter(state), r) else Applied(blank, false);
    ProcessTimers(blank, Enter(state), r);
    ActionsKeepTidy(entered.machine, init, None);
    var start := Started(stateEnter, state, data, r, init, mailbox);
    RunTidy(start, steps);
    var m := After(start, steps).machine;
    forall id: TimerId, kind: TimerKind | !kind.AnonymousTimer?
      ensures Live(m, id, kind) <==> Slot(m, kind) == Some(id)
    {
      assert SlotHolds(m, kind);
    }
  }
}
