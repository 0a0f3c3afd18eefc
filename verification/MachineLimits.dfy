/** What remains of the event order when a turn postpones its event more than once, and
    runs in which exactly-once and the place of enter entries are lost. */
module MachineLimits {
  import opened Seqs
  import opened Wrappers

  import opened MachineHistory
  import opened MachineModel
  import opened MachineRuns

  // ---------------------------------------------------------------------
  // Any number of postponements
  // ---------------------------------------------------------------------

  ghost predicate Ascending(xs: seq<nat>) {
    forall i, j :: 0 <= i < j < |xs| ==> xs[i] <= xs[j]
  }

  ghost predicate InLine(b: Books) {
    Ascending(b.Held()) && Below(b.Held(), b.counter)
  }

  /** Where among `n` events, `m` events and others the `i`-th event comes from when the
      middle ones were replaced by `t` copies. */
  function Place(n: nat, m: nat, t: nat, i: int): int {
    if i < n then i else if i < n + t then n else i - t + m
  }

  /** Copies of `x` take the place of `x`. */
  lemma CopiesInLine(a: seq<nat>, x: seq<nat>, k: nat, b: seq<nat>, c: nat)
    requires |x| <= 1 && Ascending(a + (x + b)) && Below(a + (x + b), c)
    ensures Ascending(a + Twice(x, k) + b) && Below(a + Twice(x, k) + b, c)
  {
    var ids, all, t := a + Twice(x, k) + b, a + (x + b), |Twice(x, k)|;
    TwiceElements(x, k);
    forall i | 0 <= i < |ids| ensures 0 <= Place(|a|, |x|, t, i) < |all| && ids[i] == all[Place(|a|, |x|, t, i)] {
    }
    forall i, j | 0 <= i < j < |ids| ensures ids[i] <= ids[j] {
      assert Place(|a|, |x|, t, i) <= Place(|a|, |x|, t, j);
    }
  }

  lemma AppendInLine(xs: seq<nat>, c: nat, n: nat)
    requires Ascending(xs) && Below(xs, c)
    ensures Ascending(xs + Upto(c, n)) && Below(xs + Upto(c, n), c + n)
  {
  }

  lemma TurnInLine(b: Books, x: seq<nat>, k: nat, n: nat, changed: bool)
    requires |x| <= 1 && InLine(b.(next := x + b.next))
    ensures InLine(Booked(b, x, k, n, changed))
  {
    BookedHeld(b, x, k, n, changed);
    CopiesInLine(b.postponed, x, k, b.next, b.counter);
    AppendInLine(b.postponed + Twice(x, k) + b.next, b.counter, n);
  }

  /** The next number is the newest. */
  lemma AdmitInLine(b: Books)
    requires InLine(b) && b.next == []
    ensures InLine(b.(next := [b.counter], counter := b.counter + 1))
  {
    Units(b.postponed);
    AppendInLine(b.postponed, b.counter, 1);
    assert Upto(b.counter, 1) == [b.counter];
  }

  lemma BooksStepInLine(b0: Books, b': Books, b: Books, x: seq<nat>, k: nat, n: nat, changed: bool)
    requires InLine(b0) && BooksStep(b0, b', b, x, k, n, changed)
    ensures InLine(b')
  {
    if b' != b0 {
      if b.(next := x + b.next) != b0 {
        AdmitInLine(b0);
      }
      TurnInLine(b, x, k, n, changed);
    }
  }

  lemma NextInLine(run: Run, step: Step)
    requires InLine(BooksOf(run)) && !Next(run, step).stopped
    ensures InLine(BooksOf(Next(run, step)))
  {
    if step.Turn? {
      var b, x, k, n, changed := TurnBooks(run, step.result);
      BooksStepInLine(BooksOf(run), BooksOf(Next(run, step)), b, x, k, n, changed);
    } else {
      if step.TimerEnds? { TimerKeepsQueues(run.machine, step.timer); }
      assert BooksOf(Next(run, step)) == BooksOf(run);
    }
  }

  lemma {:induction false} RunInLine(run: Run, steps: seq<Step>)
    requires InLine(BooksOf(run)) && !After(run, steps).stopped
    ensures InLine(BooksOf(After(run, steps)))
    decreases |steps|
  {
    if steps != [] {
      if Next(run, steps[0]).stopped {
        StoppedStays(Next(run, steps[0]), steps[1..]);
      } else {
        NextInLine(run, steps[0]);
        RunInLine(Next(run, steps[0]), steps[1..]);
      }
    }
  }

  /** In every run, however often its turns postpone: no event held stands before one that
      entered earlier. */
  lemma EventsStayInLine(stateEnter: bool, state: State, data: Data, r: Result, init: seq<Action>,
                         mailbox: seq<Message>, steps: seq<Step>)
    requires !After(Started(stateEnter, state, data, r, init, mailbox), steps).stopped
    ensures var m := After(Started(stateEnter, state, data, r, init, mailbox), steps).machine;
            Ascending(Ids(m.postponed + m.next)) && Below(Ids(m.postponed + m.next), m.counter)
  {
    var start := Started(stateEnter, state, data, r, init, mailbox);
    if start.stopped {
      StoppedStays(start, steps);
    }
    StartSound(stateEnter, state, data, r, init, mailbox);
    RunInLine(start, steps);
    var m := After(start, steps).machine;
    IdsConcat(m.postponed, m.next);
  }

  // ---------------------------------------------------------------------
  // What is lost
  // ---------------------------------------------------------------------

  /** The first event is postponed twice in its turn: it is held twice, so the numbers held
      are no longer strictly increasing. */
  lemma PostponedTwice(state: State, data: Data, ty: EventType, content: Content)
    ensures var run := After(Started(false, state, data, Unexpected, [], []),
                             [Arrive(EventMessage(ty, content)), Turn(KeepStateAndData([Postpone, Postpone]))]);
            && !run.stopped
            && Held(run, 0) == 2
            && !Increasing(Ids(run.machine.postponed + run.machine.next))
  {
    var start := Started(false, state, data, Unexpected, [], []);
    var arrive, turn := Arrive(EventMessage(ty, content)), Turn(KeepStateAndData([Postpone, Postpone]));
    var item := Numbered(0, ty, content);
    var m := start.machine.(counter := 1);
    TwoSteps(start, arrive, turn);
    OneAction(ApplyAction(m, Postpone, Some(item)), Postpone, Some(item));
    assert [Postpone, Postpone][1..] == [Postpone];
    assert Process(m, item, turn.result) == Applied(m.(postponed := [item, item]), false);
    assert Next(Next(start, arrive), turn).machine == m.(postponed := [item, item]);
    assert Ids([item, item]) == [0, 0] by {
      assert [item, item][1..] == [item];
      OneId(item);
    }
    Units([item, item]);
    var ids: seq<nat> := [0, 0];
    Units(ids);
    assert ids[0] == ids[1];
  }

  lemma OneAction(m: Machine, action: Action, current: Option<Item>)
    requires !action.StopAction?
    ensures ApplyActions(m, [action], current) == Applied(ApplyAction(m, action, current), false)
  {
    assert [action][1..] == [];
  }

  lemma TwoSteps(run: Run, first: Step, second: Step)
    ensures After(run, [first, second]) == Next(Next(run, first), second)
  {
    assert [first, second][1..] == [second];
    assert After(Next(run, first), [second]) == After(Next(Next(run, first), second), []);
  }

  /** The machine after its first event moved it from `s0` to `s1` and injected another. */
  function Moved(s0: State, s1: State, data: Data, injected: Item): Machine {
    Machine(true, s1, data, [Enter(s0), injected], [], None, map[], map[], 2, 0)
  }

  lemma FirstTurns(s0: State, s1: State, data: Data, tag: Tag, c0: Content, c1: Content) returns (run: Run)
    requires s1 != s0
    ensures run == After(Started(true, s0, data, Unexpected, [], []),
                         [Arrive(EventMessage(OtherType(tag), c0)),
                          Turn(NextState(s1, data, [NextEvent(OtherType(tag), c1)]))])
    ensures run.machine == Moved(s0, s1, data, Numbered(1, OtherType(tag), c1)) && !run.stopped
  {
    var start := Started(true, s0, data, Unexpected, [], []);
    var arrive := Arrive(EventMessage(OtherType(tag), c0));
    var turn := Turn(NextState(s1, data, [NextEvent(OtherType(tag), c1)]));
    TwoSteps(start, arrive, turn);
    OneAction(start.machine.(counter := 1), NextEvent(OtherType(tag), c1), Some(Numbered(0, OtherType(tag), c0)));
    run := Next(Next(start, arrive), turn);
  }

  lemma LastTurns(run: Run, s0: State, s1: State, data: Data, injected: Item)
    requires s1 != s0 && injected.Numbered? && injected.ty.OtherType?
    requires run.machine == Moved(s0, s1, data, injected) && !run.stopped
    ensures var run' := After(run, [Turn(KeepStateAndData([Postpone])), Turn(NextState(s0, data, []))]);
            !run'.stopped && run'.machine.next == [Enter(s1), Enter(s0)]
  {
    var m := run.machine;
    var first, second := Turn(KeepStateAndData([Postpone])), Turn(NextState(s0, data, []));
    TwoSteps(run, first, second);
    OneAction(m.(next := [injected]), Postpone, Some(Enter(s0)));
    var run1 := Next(run, first);
    assert run1.machine == m.(next := [injected], postponed := [Enter(s0)]) && !run1.stopped;
    assert Next(run1, second).machine.next == [Enter(s1)] + [Enter(s0)] + [];
  }

  /** With `state_enter`, the first event moves the machine on and injects another; the
      enter entry is postponed; the injected event moves the machine back. The enter entry
      of the first change then stands behind that of the second. */
  lemma EnterPostponed(s0: State, s1: State, data: Data, tag: Tag, c0: Content, c1: Content)
    requires s1 != s0
    ensures var run := After(Started(true, s0, data, Unexpected, [], []),
                             [Arrive(EventMessage(OtherType(tag), c0)),
                              Turn(NextState(s1, data, [NextEvent(OtherType(tag), c1)])),
                              Turn(KeepStateAndData([Postpone])),
                              Turn(NextState(s0, data, []))]);
            && !run.stopped
            && run.machine.next == [Enter(s1), Enter(s0)]
            && !EnterAtHead(run)
  {
    var first := [Arrive(EventMessage(OtherType(tag), c0)), Turn(NextState(s1, data, [NextEvent(OtherType(tag), c1)]))];
    var last := [Turn(KeepStateAndData([Postpone])), Turn(NextState(s0, data, []))];
    AfterConcat(Started(true, s0, data, Unexpected, [], []), first, last);
    var run := FirstTurns(s0, s1, data, tag, c0, c1);
    LastTurns(run, s0, s1, data, Numbered(1, OtherType(tag), c1));
    assert After(run, last).machine.next[1].Enter?;
  }

  lemma {:induction false} AfterConcat(run: Run, a: seq<Step>, b: seq<Step>)
    ensures After(run, a + b) == After(After(run, a), b)
    decreases |a|
  {
    if a == [] {
      Units(b);
    } else {
      ConcatHead(a, b);
      AfterConcat(Next(run, a[0]), a[1..], b);
    }
  }
}
