/** What the state machine handles is what was sent to it: messages are taken in the order
    they arrived, and events come back from the queues as they entered. */
module MachineEvents {
  import opened Seqs
  import opened Wrappers

  import opened MachineModel
  import opened MachineRuns
  import opened MachineStops

  // ---------------------------------------------------------------------
  // The mailbox
  // ---------------------------------------------------------------------

  /** What a step puts into the mailbox of a machine that runs. */
  function Arrival(run: Run, step: Step): seq<Message> {
    if run.stopped then []
    else
      match step
      case Arrive(message) => [message]
      case TimerEnds(id, Some(message)) => if id in run.machine.timers then [message] else []
      case _ => []
  }

  function Arrivals(run: Run, steps: seq<Step>): seq<Message>
    decreases |steps|
  {
    if steps == [] then [] else Arrival(run, steps[0]) + Arrivals(Next(run, steps[0]), steps[1..])
  }

  /** A turn takes a message only with nothing queued. */
  predicate Takes(run: Run, step: Step) {
    !run.stopped && step.Turn? && run.machine.next == [] && run.mailbox != []
  }

  function Taken(run: Run, steps: seq<Step>): nat
    decreases |steps|
  {
    if steps == [] then 0 else (if Takes(run, steps[0]) then 1 else 0) + Taken(Next(run, steps[0]), steps[1..])
  }

  lemma NextMailbox(run: Run, step: Step)
    ensures Next(run, step).mailbox == (if Takes(run, step) then run.mailbox[1..] else run.mailbox) + Arrival(run, step)
  {
    Units(run.mailbox);
    if run.mailbox != [] {
      Units(run.mailbox[1..]);
    }
  }

  /** Over every run the messages taken are, in order, the first of those that were in the
      mailbox or arrived; the others are still there. */
  lemma {:induction false} MailboxIsFifo(run: Run, steps: seq<Step>)
    ensures var all, taken := run.mailbox + Arrivals(run, steps), Taken(run, steps);
            taken <= |all| && After(run, steps).mailbox == all[taken..]
    decreases |steps|
  {
    Units(run.mailbox);
    if steps != [] {
      var run' := Next(run, steps[0]);
      NextMailbox(run, steps[0]);
      MailboxIsFifo(run', steps[1..]);
      Shifted(run.mailbox, Arrival(run, steps[0]), Arrivals(run', steps[1..]), Taken(run', steps[1..]),
              Takes(run, steps[0]));
    }
  }

  lemma Shifted(box: seq<Message>, more: seq<Message>, rest: seq<Message>, k: nat, takes: bool)
    requires takes ==> box != []
    requires k <= |(if takes then box[1..] else box) + more + rest|
    ensures var all := box + (more + rest);
            var n := if takes then k + 1 else k;
            n <= |all| && ((if takes then box[1..] else box) + more + rest)[k..] == all[n..]
  {
    Assoc(box, more, rest);
    if takes {
      ConcatHead(box, more);
      ConcatHead(box + more, rest);
    }
  }

  // ---------------------------------------------------------------------
  // The contents of events
  // ---------------------------------------------------------------------

  /** What a list of actions injects before any stop. */
  function Contents(actions: seq<Action>): seq<(EventType, Content)> {
    if actions == [] || actions[0].StopAction? then []
    else if actions[0].NextEvent? then [(actions[0].ty, actions[0].content)] + Contents(actions[1..])
    else Contents(actions[1..])
  }

  /** The events that enter in a step: one from the mailbox, and those injected. */
  function Entering(run: Run, step: Step): seq<(EventType, Content)> {
    if run.stopped || !step.Turn? then []
    else if run.machine.next != [] then Contents(ActionsOf(step.result))
    else if run.mailbox == [] || !run.mailbox[0].EventMessage? then []
    else [(run.mailbox[0].ty, run.mailbox[0].content)] + Contents(ActionsOf(step.result))
  }

  function Entries(run: Run, steps: seq<Step>): seq<(EventType, Content)>
    decreases |steps|
  {
    if steps == [] then [] else Entering(run, steps[0]) + Entries(Next(run, steps[0]), steps[1..])
  }

  predicate SameAs(item: Item, log: seq<(EventType, Content)>) {
    item.Numbered? ==> item.id < |log| && log[item.id] == (item.ty, item.content)
  }

  ghost predicate AllAs(items: seq<Item>, log: seq<(EventType, Content)>) {
    forall i {:trigger items[i]} :: 0 <= i < |items| ==> SameAs(items[i], log)
  }

  /** Every event held is the one that entered under its number. */
  ghost predicate AsEntered(m: Machine, log: seq<(EventType, Content)>) {
    m.counter == |log| && AllAs(m.next, log) && AllAs(m.postponed, log)
  }

  lemma AllAsConcat(a: seq<Item>, b: seq<Item>, log: seq<(EventType, Content)>, more: seq<(EventType, Content)>)
    requires AllAs(a, log) && AllAs(b, log + more)
    ensures AllAs(a + b, log + more)
  {
    forall i | 0 <= i < |a + b| ensures SameAs((a + b)[i], log + more) {
      if i < |a| {
        assert SameAs(a[i], log);
      } else {
        assert (a + b)[i] == b[i - |a|];
      }
    }
  }

  lemma {:induction false} InjectedContents(actions: seq<Action>, k: nat)
    ensures |Injected(actions, k)| == |Contents(actions)|
    ensures forall i {:trigger Injected(actions, k)[i]} :: 0 <= i < |Contents(actions)| ==>
              Injected(actions, k)[i] == Numbered(k + i, Contents(actions)[i].0, Contents(actions)[i].1)
  {
    if actions != [] && !actions[0].StopAction? {
      InjectedContents(actions[1..], if actions[0].NextEvent? then k + 1 else k);
      if actions[0].NextEvent? {
        assert Injected(actions, k)[1..] == Injected(actions[1..], k + 1);
        assert Contents(actions)[1..] == Contents(actions[1..]);
        forall i | 0 <= i < |Contents(actions)|
          ensures Injected(actions, k)[i] == Numbered(k + i, Contents(actions)[i].0, Contents(actions)[i].1)
        {
          if i > 0 {
            assert Injected(actions[1..], k + 1)[i - 1] == Injected(actions, k)[i];
          }
        }
      }
    }
  }

  lemma InjectedAs(actions: seq<Action>, log: seq<(EventType, Content)>)
    ensures AllAs(Injected(actions, |log|), log + Contents(actions))
  {
    InjectedContents(actions, |log|);
    var items, more := Injected(actions, |log|), Contents(actions);
    forall i | 0 <= i < |items| ensures SameAs(items[i], log + more) {
      assert (log + more)[|log| + i] == more[i];
    }
  }

  /** Actions on queues that hold events as they entered. */
  lemma ActionsEntered(m: Machine, m': Machine, actions: seq<Action>, copies: seq<Item>,
                       log: seq<(EventType, Content)>)
    requires AsEntered(m, log) && AllAs(copies, log)
    requires m'.next == m.next + Injected(actions, m.counter) && m'.postponed == m.postponed + copies
    requires m'.counter == m.counter + |Injected(actions, m.counter)|
    ensures AsEntered(m', log + Contents(actions))
  {
    InjectedContents(actions, m.counter);
    InjectedAs(actions, log);
    AllAsConcat(m.next, Injected(actions, m.counter), log, Contents(actions));
    assert AllAs([], log + Contents(actions));
    AllAsConcat(copies, [], log, Contents(actions));
    Units(copies);
    AllAsConcat(m.postponed, copies, log, Contents(actions));
  }

  lemma ReplayedEntered(m: Machine, from: State, log: seq<(EventType, Content)>)
    requires AsEntered(m, log)
    ensures AsEntered(Replayed(m, from), log)
  {
    var enter := if m.stateEnter then [Enter(from)] else [];
    var none: seq<(EventType, Content)> := [];
    Units(log);
    assert AllAs(enter, log);
    AllAsConcat(enter, m.postponed, log, none);
    AllAsConcat(enter + m.postponed, m.next, log, none);
  }

  lemma ProcessEntered(m: Machine, item: Item, r: Result, log: seq<(EventType, Content)>)
    requires AsEntered(m, log) && SameAs(item, log)
    ensures AsEntered(Process(m, item, r).machine, log + Contents(ActionsOf(r)))
  {
    var m1 := if Changes(m, item, r) then CancelStateTimer(m) else m;
    var actions := ActionsOf(r);
    var applied := ApplyActions(m1, actions, Some(item));
    ActionsOnQueues(m1, actions, item);
    var copies := Copies(item, Postpones(actions));
    ActionsEntered(m1, applied.machine, actions, copies, log);
    if !applied.stopped && Changes(m, item, r) {
      var m2 := applied.machine.(state := NewState(m, item, r), data := Unpack(m, r).1);
      ReplayedEntered(m2, m.state, log + Contents(actions));
    }
  }

  lemma TurnEntered(run: Run, r: Result, log: seq<(EventType, Content)>)
    requires !run.stopped && AsEntered(run.machine, log)
    ensures AsEntered(TakeTurn(run, r).machine, log + Entering(run, Turn(r)))
  {
    var m := run.machine;
    Units(log);
    if m.next != [] {
      var taken := m.(next := m.next[1..]);
      assert forall i :: 0 <= i < |m.next| - 1 ==> taken.next[i] == m.next[i + 1];
      ProcessEntered(taken, m.next[0], r, log);
    } else if run.mailbox != [] && run.mailbox[0].EventMessage? {
      var ty, content := run.mailbox[0].ty, run.mailbox[0].content;
      var none: seq<Item> := [];
      AllAsConcat(m.postponed, none, log, [(ty, content)]);
      Units(m.postponed);
      ProcessEntered(m.(counter := m.counter + 1), Numbered(m.counter, ty, content), r, log + [(ty, content)]);
      Assoc(log, [(ty, content)], Contents(ActionsOf(r)));
    }
  }

  lemma {:induction false} RunEntered(run: Run, steps: seq<Step>, log: seq<(EventType, Content)>)
    requires AsEntered(run.machine, log)
    ensures AsEntered(After(run, steps).machine, log + Entries(run, steps))
    decreases |steps|
  {
    Units(log);
    if steps != [] {
      if !run.stopped && steps[0].Turn? {
        TurnEntered(run, steps[0].result, log);
      }
      RunEntered(Next(run, steps[0]), steps[1..], log + Entering(run, steps[0]));
      Assoc(log, Entering(run, steps[0]), Entries(Next(run, steps[0]), steps[1..]));
    }
  }

  lemma StartEntered(stateEnter: bool, state: State, data: Data, r: Result, init: seq<Action>, mailbox: seq<Message>)
    requires !Started(stateEnter, state, data, r, init, mailbox).stopped
    ensures AsEntered(Started(stateEnter, state, data, r, init, mailbox).machine,
                      Contents(EnterActions(stateEnter, r)) + Contents(init))
  {
    var m := Started(stateEnter, state, data, r, init, mailbox).machine;
    var first := EnterActions(stateEnter, r);
    StartsWith(stateEnter, state, data, r, init, mailbox);
    InjectedContents(first, 0);
    InjectedContents(init, |Contents(first)|);
    InjectedAs(first, []);
    Units(Contents(first));
    InjectedAs(init, Contents(first));
    AllAsConcat(Injected(first, 0), Injected(init, |Contents(first)|), Contents(first), Contents(init));
  }

  /** In every run of a machine that got to its loop, an event held, however often postponed
      and replayed, has the type and content with which the event of its number entered, from
      the mailbox or injected, in the order of entering. */
  lemma EventsAreUnaltered(stateEnter: bool, state: State, data: Data, r: Result, init: seq<Action>,
                           mailbox: seq<Message>, steps: seq<Step>)
    requires !Started(stateEnter, state, data, r, init, mailbox).stopped
    ensures var start := Started(stateEnter, state, data, r, init, mailbox);
            var m := After(start, steps).machine;
            var log := Contents(EnterActions(stateEnter, r)) + Contents(init) + Entries(start, steps);
            && m.counter == |log|
            && forall item :: item in m.next + m.postponed && item.Numbered? ==>
                 item.id < |log| && log[item.id] == (item.ty, item.content)
  {
    StartEntered(stateEnter, state, data, r, init, mailbox);
    var start := Started(stateEnter, state, data, r, init, mailbox);
    var log := Contents(EnterActions(stateEnter, r)) + Contents(init);
    RunEntered(start, steps, log);
    var m := After(start, steps).machine;
    forall item | item in m.next + m.postponed ensures SameAs(item, log + Entries(start, steps)) {
      if item in m.next {
        var i :| 0 <= i < |m.next| && m.next[i] == item;
      } else {
        var i :| 0 <= i < |m.postponed| && m.postponed[i] == item;
      }
    }
  }
}
