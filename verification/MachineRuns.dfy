/** Runs of the state machine's loop, and what a turn does to the numbered events. */
module MachineRuns {
  import opened Seqs
  import opened Wrappers

  import opened MachineModel

  datatype Message = EventMessage(ty: EventType, content: Content) | StopMessage | OtherMessage

  /** Event `id` was handled when the state had changed `epoch` times. */
  datatype Handling = Handling(id: nat, epoch: nat)

  /** The machine with its mailbox, and history: events completed, every handling in
      order, the number of state changes, and the state that the last turn left, if any. */
  datatype Run = Run(
    machine: Machine,
    mailbox: seq<Message>,
    stopped: bool,
    done: set<nat>,
    handled: seq<Handling>,
    epoch: nat,
    left: Option<State>)

  /** The environment delivers a message; a timer task ends, having sent its message or
      not; or the loop takes a turn, in which the callback answers `result`. */
  datatype Step =
    | Arrive(message: Message)
    | TimerEnds(timer: TimerId, fired: Option<Message>)
    | Turn(result: Result)

  function ActionsOf(r: Result): seq<Action> {
    match r
    case NextState(_, _, actions) => actions
    case KeepState(_, actions) => actions
    case KeepStateAndData(actions) => actions
    case Stop => [StopAction]
    case StopAndReply(actions) => actions + [StopAction]
    case Unexpected => []
  }

  function PostponesOf(r: Result): nat {
    Postpones(ActionsOf(r))
  }

  /** The machine handles `item`, already removed from its queue, with the callback answering `r`. */
  function Handle(run: Run, item: Item, r: Result): Run {
    var applied := Process(run.machine, item, r);
    var changed := !applied.stopped && Changes(run.machine, item, r);
    run.(machine := applied.machine,
         stopped := applied.stopped,
         done := if item.Numbered? && PostponesOf(r) == 0 then run.done + {item.id} else run.done,
         handled := if item.Numbered? then run.handled + [Handling(item.id, run.epoch)] else run.handled,
         epoch := if changed then run.epoch + 1 else run.epoch,
         left := if changed then Some(run.machine.state) else None)
  }

  /** One iteration of the loop: queued events before the mailbox. */
  function TakeTurn(run: Run, r: Result): Run {
    var m := run.machine;
    if m.next != [] then Handle(run.(machine := m.(next := m.next[1..])), m.next[0], r)
    else if run.mailbox == [] then run
    else
      var rest := run.(mailbox := run.mailbox[1..], left := None);
      match run.mailbox[0]
      case StopMessage => rest.(stopped := true)
      case OtherMessage => rest
      case EventMessage(ty, content) =>
        Handle(rest.(machine := m.(counter := m.counter + 1)), Numbered(m.counter, ty, content), r)
  }

  function Next(run: Run, step: Step): Run {
    if run.stopped then run
    else
      match step
      case Arrive(message) => run.(mailbox := run.mailbox + [message])
      case TimerEnds(id, fired) =>
        if id !in run.machine.timers then run
        else run.(machine := TimerGone(run.machine, id),
                  mailbox := if fired.Some? then run.mailbox + [fired.value] else run.mailbox)
      case Turn(r) => TakeTurn(run, r)
  }

  function After(run: Run, steps: seq<Step>): Run
    decreases |steps|
  {
    if steps == [] then run else After(Next(run, steps[0]), steps[1..])
  }

  /** The loop before its first turn: the enter callback answers `r`, then the actions that
      `init` asked for run with no current event. */
  function Started(stateEnter: bool, state: State, data: Data, r: Result, init: seq<Action>,
                   mailbox: seq<Message>): Run
  {
    var blank := Machine(stateEnter, state, data, [], [], None, map[], map[], 0, 0);
    var entered := if stateEnter then Process(blank, Enter(state), r) else Applied(blank, false);
    var applied := if entered.stopped then entered else ApplyActions(entered.machine, init, None);
    Run(applied.machine, mailbox, applied.stopped, {}, [], 0, None)
  }

  // ---------------------------------------------------------------------
  // The numbers held in the queues
  // ---------------------------------------------------------------------

  /** The numbers of the queued events, ignoring enter entries. */
  function Ids(items: seq<Item>): seq<nat> {
    if items == [] then []
    else if items[0].Numbered? then [items[0].id] + Ids(items[1..])
    else Ids(items[1..])
  }

  lemma {:induction false} IdsConcat(a: seq<Item>, b: seq<Item>)
    ensures Ids(a + b) == Ids(a) + Ids(b)
  {
    if a == [] {
      Units(b);
      Units(Ids(b));
    } else {
      IdsConcat(a[1..], b);
      ConcatHead(a, b);
      if a[0].Numbered? {
        Assoc([a[0].id], Ids(a[1..]), Ids(b));
      }
    }
  }

  function Upto(k: nat, n: nat): seq<nat> {
    seq(n, i requires 0 <= i < n => k + i)
  }

  function Twice(x: seq<nat>, n: nat): seq<nat> {
    if n == 0 then [] else x + Twice(x, n - 1)
  }

  lemma {:induction false} IdsOfInjected(actions: seq<Action>, k: nat)
    ensures Ids(Injected(actions, k)) == Upto(k, |Injected(actions, k)|)
  {
    if !(actions == [] || actions[0].StopAction?) {
      IdsOfInjected(actions[1..], if actions[0].NextEvent? then k + 1 else k);
      if actions[0].NextEvent? {
        assert Injected(actions, k)[1..] == Injected(actions[1..], k + 1);
        assert [k] + Upto(k + 1, |Injected(actions[1..], k + 1)|) == Upto(k, |Injected(actions, k)|);
      }
    }
  }

  lemma {:induction false} IdsOfCopies(item: Item, n: nat)
    ensures Ids(Copies(item, n)) == Twice(Ids([item]), n)
  {
    if n > 0 {
      assert Copies(item, n)[1..] == Copies(item, n - 1);
      assert Copies(item, n) == [item] + Copies(item, n - 1);
      IdsConcat([item], Copies(item, n - 1));
      IdsOfCopies(item, n - 1);
    }
  }

  // ---------------------------------------------------------------------
  // A turn on the books
  // ---------------------------------------------------------------------

  /** The record of a run by event number. */
  datatype Books = Books(
    postponed: seq<nat>,
    next: seq<nat>,
    counter: nat,
    done: set<nat>,
    handled: seq<Handling>,
    epoch: nat)
  {
    function Held(): seq<nat> {
      postponed + next
    }
  }

  function BooksOf(run: Run): Books {
    Books(Ids(run.machine.postponed), Ids(run.machine.next), run.machine.counter, run.done, run.handled, run.epoch)
  }

  /** Handling `x` (nothing, for an enter entry): it is postponed `k` times, `n` events
      are injected, and the state may change. */
  function Booked(b: Books, x: seq<nat>, k: nat, n: nat, changed: bool): Books {
    var held := b.postponed + Twice(x, k);
    var queued := b.next + Upto(b.counter, n);
    Books(if changed then [] else held,
          if changed then held + queued else queued,
          b.counter + n,
          if k == 0 then b.done + (set i | i in x) else b.done,
          if x == [] then b.handled else b.handled + [Handling(x[0], b.epoch)],
          if changed then b.epoch + 1 else b.epoch)
  }

  /** `Process` on the queues, by number. */
  lemma ProcessIds(m: Machine, item: Item, r: Result)
    requires !Process(m, item, r).stopped
    ensures var m' := Process(m, item, r).machine;
            var n := |Injected(ActionsOf(r), m.counter)|;
            var held := Ids(m.postponed) + Twice(Ids([item]), PostponesOf(r));
            var queued := Ids(m.next) + Upto(m.counter, n);
            && m'.counter == m.counter + n
            && m'.stateEnter == m.stateEnter
            && Ids(m'.postponed) == (if Changes(m, item, r) then [] else held)
            && Ids(m'.next) == (if Changes(m, item, r) then held + queued else queued)
  {
    var actions := ActionsOf(r);
    var m1 := if Changes(m, item, r) then CancelStateTimer(m) else m;
    ActionsOnQueues(m1, actions, item);
    IdsOfCopies(item, Postpones(actions));
    IdsOfInjected(actions, m.counter);
    IdsConcat(m.postponed, Copies(item, Postpones(actions)));
    IdsConcat(m.next, Injected(actions, m.counter));
    if Changes(m, item, r) {
      var m2 := ApplyActions(m1, actions, Some(item)).machine;
      var enter := if m.stateEnter then [Enter(m.state)] else [];
      assert Ids(enter) == [];
      IdsConcat(enter + m2.postponed, m2.next);
      IdsConcat(enter, m2.postponed);
      Units(Ids(m2.postponed));
    }
  }

  lemma OneId(item: Item)
    ensures Ids([item]) == if item.Numbered? then [item.id] else []
    ensures forall done: set<nat> ::
      done + (set i | i in Ids([item])) == if item.Numbered? then done + {item.id} else done
  {
    assert (set i | i in Ids([item])) == if item.Numbered? then {item.id} else {};
  }

  lemma HandleBooks(run: Run, item: Item, r: Result)
    requires !Handle(run, item, r).stopped
    ensures BooksOf(Handle(run, item, r))
         == Booked(BooksOf(run), Ids([item]), PostponesOf(r), |Injected(ActionsOf(r), run.machine.counter)|,
                   Changes(run.machine, item, r))
  {
    var run' := Handle(run, item, r);
    ProcessIds(run.machine, item, r);
    OneId(item);
    assert BooksOf(run').counter == run'.machine.counter && BooksOf(run').done == run'.done;
    assert BooksOf(run').postponed == Ids(run'.machine.postponed) && BooksOf(run').next == Ids(run'.machine.next);
  }
}
