/** Event order, exactly-once handling and bounded retries over every run. */
module MachineHistory {
  import opened Seqs
  import opened Wrappers

  import opened MachineModel
  import opened MachineRuns

  // ---------------------------------------------------------------------
  // Order of the numbers held
  // ---------------------------------------------------------------------

  ghost predicate Increasing(xs: seq<nat>) {
    forall i, j :: 0 <= i < j < |xs| ==> xs[i] < xs[j]
  }

  ghost predicate Below(xs: seq<nat>, n: nat) {
    forall i :: 0 <= i < |xs| ==> xs[i] < n
  }

  ghost predicate Ordered(b: Books) {
    Increasing(b.Held()) && Below(b.Held(), b.counter)
  }

  lemma {:induction false} TwiceElements(x: seq<nat>, n: nat)
    requires |x| <= 1
    ensures |Twice(x, n)| == |x| * n && forall i :: 0 <= i < |Twice(x, n)| ==> x == [Twice(x, n)[i]]
  {
    if n > 0 {
      TwiceElements(x, n - 1);
    }
  }

  lemma InsertNone(a: seq<nat>, x: seq<nat>, b: seq<nat>, c: nat)
    requires |x| <= 1 && Increasing(a + (x + b)) && Below(a + (x + b), c)
    ensures Increasing(a + b) && Below(a + b, c)
  {
    var all := a + (x + b);
    forall i, j | 0 <= i < j < |a + b| ensures (a + b)[i] < (a + b)[j] {
      var i', j' := if i < |a| then i else i + |x|, if j < |a| then j else j + |x|;
      assert (a + b)[i] == all[i'] && (a + b)[j] == all[j'];
    }
    forall i | 0 <= i < |a + b| ensures (a + b)[i] < c {
      assert (a + b)[i] == all[if i < |a| then i else i + |x|];
    }
  }

  /** Putting `x` back where it was, `k` times over, keeps the order exactly for `k <= 1`. */
  lemma InsertAgain(a: seq<nat>, x: seq<nat>, k: nat, b: seq<nat>, c: nat)
    requires |x| <= 1 && Increasing(a + (x + b)) && Below(a + (x + b), c)
    ensures var ids := a + Twice(x, k) + b;
            Below(ids, c) && (Increasing(ids) <==> k <= 1 || x == [])
  {
    var ids, all := a + Twice(x, k) + b, a + (x + b);
    TwiceElements(x, k);
    if x == [] || k == 0 {
      assert ids == a + b;
      InsertNone(a, x, b, c);
    } else if k == 1 {
      assert Twice(x, 1) == x + Twice(x, 0) == x;
      assert ids == all;
    } else {
      assert ids[|a|] == Twice(x, k)[0] == x[0] && ids[|a| + 1] == Twice(x, k)[1] == x[0];
      forall i | 0 <= i < |ids| ensures ids[i] < c {
        var t := |Twice(x, k)|;
        assert ids[i] == all[if i < |a| then i else if i < |a| + t then |a| else i - t + 1];
      }
    }
  }

  lemma InUpto(k: nat, n: nat, id: int)
    ensures id in Upto(k, n) <==> k <= id < k + n
  {
    if k <= id < k + n {
      assert Upto(k, n)[id - k] == id;
    }
  }

  lemma AppendUpto(xs: seq<nat>, c: nat, n: nat)
    requires Below(xs, c)
    ensures Below(xs + Upto(c, n), c + n) && (Increasing(xs + Upto(c, n)) <==> Increasing(xs))
  {
    var ys := xs + Upto(c, n);
    assert forall i :: 0 <= i < |xs| ==> ys[i] == xs[i];
  }

  /** Whether the state changes or not, a turn holds the same events in the same order. */
  lemma BookedHeld(b: Books, x: seq<nat>, k: nat, n: nat, changed: bool)
    ensures var b' := Booked(b, x, k, n, changed);
            && b'.Held() == b.postponed + Twice(x, k) + b.next + Upto(b.counter, n)
            && b'.counter == b.counter + n
  {
    var held, queued := b.postponed + Twice(x, k), b.next + Upto(b.counter, n);
    assert held + queued == held + b.next + Upto(b.counter, n);
    assert [] + (held + queued) == held + queued;
  }

  /** A turn keeps `postponed ++ next` strictly increasing exactly when it postpones its
      event at most once; an enter entry carries no number. */
  lemma TurnOrder(b: Books, x: seq<nat>, k: nat, n: nat, changed: bool)
    requires |x| <= 1 && Ordered(b.(next := x + b.next))
    ensures var b' := Booked(b, x, k, n, changed);
            && b'.Held() == b.postponed + Twice(x, k) + b.next + Upto(b.counter, n)
            && Below(b'.Held(), b'.counter)
            && (Increasing(b'.Held()) <==> k <= 1 || x == [])
  {
    BookedHeld(b, x, k, n, changed);
    InsertAgain(b.postponed, x, k, b.next, b.counter);
    AppendUpto(b.postponed + Twice(x, k) + b.next, b.counter, n);
  }

  // ---------------------------------------------------------------------
  // Exactly once
  // ---------------------------------------------------------------------

  /** Every event that entered is completed or held, and never both; being strictly
      increasing, the numbers held name each event once. */
  ghost predicate Ledger(b: Books) {
    && (forall id :: 0 <= id < b.counter <==> id in b.done || id in b.Held())
    && (forall id :: id in b.done ==> id !in b.Held())
  }

  lemma TurnHeld(b: Books, x: seq<nat>, k: nat, n: nat, changed: bool, id: nat)
    requires |x| <= 1 && Ordered(b.(next := x + b.next))
    ensures id in Booked(b, x, k, n, changed).Held() <==>
              id in b.postponed || id in b.next || (1 <= k && id in x) || b.counter <= id < b.counter + n
  {
    TurnOrder(b, x, k, n, changed);
    InUpto(b.counter, n, id);
    TwiceElements(x, k);
    if 1 <= k && id in x { assert Twice(x, k)[0] == id; }
    if id in Twice(x, k) { assert x == [id]; }
  }

  lemma InOnePlace(a: seq<nat>, x: seq<nat>, b: seq<nat>, id: nat)
    requires Increasing(a + (x + b)) && id in x
    ensures id !in a && id !in b
  {
    var all := a + (x + b);
    var j :| 0 <= j < |x| && x[j] == id;
    assert all[|a| + j] == id;
    assert forall i :: 0 <= i < |a| ==> all[i] == a[i];
    assert forall i :: 0 <= i < |b| ==> all[|a| + |x| + i] == b[i];
  }

  lemma TurnLedger(b: Books, x: seq<nat>, k: nat, n: nat, changed: bool)
    requires |x| <= 1 && k <= 1
    requires Ordered(b.(next := x + b.next)) && Ledger(b.(next := x + b.next))
    ensures Ledger(Booked(b, x, k, n, changed))
  {
    var b0 := b.(next := x + b.next);
    var b' := Booked(b, x, k, n, changed);
    forall id: nat
      ensures id in b'.Held()
        <==> id in b.postponed || id in b.next || (1 <= k && id in x) || b.counter <= id < b.counter + n
      ensures id in b0.Held() <==> id in b.postponed || id in b.next || id in x
      ensures id in x ==> id !in b.postponed && id !in b.next
    {
      TurnHeld(b, x, k, n, changed, id);
      if id in x { InOnePlace(b.postponed, x, b.next, id); }
    }
  }

  // ---------------------------------------------------------------------
  // Retries
  // ---------------------------------------------------------------------

  /** Two handlings of one event are separated by a state change. */
  ghost predicate Separated(handled: seq<Handling>) {
    forall i, j :: 0 <= i < j < |handled| && handled[i].id == handled[j].id ==> handled[i].epoch < handled[j].epoch
  }

  /** A queued event was not handled since the last state change. */
  ghost predicate QueuedAreOlder(b: Books) {
    forall i :: 0 <= i < |b.handled| && b.handled[i].id in b.next ==> b.handled[i].epoch < b.epoch
  }

  ghost predicate Recorded(b: Books) {
    forall i :: 0 <= i < |b.handled| ==> b.handled[i].epoch <= b.epoch && b.handled[i].id < b.counter
  }

  ghost predicate Retries(b: Books) {
    Separated(b.handled) && QueuedAreOlder(b) && Recorded(b)
  }

  lemma TurnQueue(b: Books, x: seq<nat>, k: nat, n: nat, changed: bool, id: nat)
    requires |x| <= 1 && id in Booked(b, x, k, n, changed).next
    ensures id in b.next || b.counter <= id || (changed && (id in b.postponed || id in x))
  {
    InUpto(b.counter, n, id);
    TwiceElements(x, k);
    if id in Twice(x, k) { assert x == [id]; }
  }

  lemma TurnRetries(b: Books, x: seq<nat>, k: nat, n: nat, changed: bool)
    requires |x| <= 1
    requires Ordered(b.(next := x + b.next)) && Retries(b.(next := x + b.next))
    ensures Retries(Booked(b, x, k, n, changed))
  {
    var b0, b' := b.(next := x + b.next), Booked(b, x, k, n, changed);
    if x != [] {
      assert x[0] in b0.next;
      assert b0.Held()[|b.postponed|] == x[0];
    }
    forall i | 0 <= i < |b'.handled| && b'.handled[i].id in b'.next ensures b'.handled[i].epoch < b'.epoch {
      var id := b'.handled[i].id;
      TurnQueue(b, x, k, n, changed, id);
      if id in b.next {
        assert id in b0.next;
        if i == |b.handled| {
          InOnePlace(b.postponed, x, b.next, id);
        }
      }
    }
  }

  /** Number of handlings of an event. */
  function Times(handled: seq<Handling>, id: nat): nat {
    if handled == [] then 0
    else (if handled[0].id == id then 1 else 0) + Times(handled[1..], id)
  }

  lemma {:induction false} TimesInEpochs(handled: seq<Handling>, id: nat, low: nat, high: nat)
    requires Separated(handled) && low <= high + 1
    requires forall i :: 0 <= i < |handled| && handled[i].id == id ==> low <= handled[i].epoch <= high
    ensures Times(handled, id) <= high + 1 - low
    decreases |handled|
  {
    if handled != [] {
      var rest := handled[1..];
      assert forall i :: 0 <= i < |rest| ==> rest[i] == handled[i + 1];
      if handled[0].id == id {
        TimesInEpochs(rest, id, handled[0].epoch + 1, high);
      } else {
        TimesInEpochs(rest, id, low, high);
      }
    }
  }

  lemma TimesBound(b: Books, first: nat)
    requires Retries(b) && first < |b.handled| && !Seen(b.handled[..first], b.handled[first].id)
    ensures Times(b.handled, b.handled[first].id) <= 1 + (b.epoch - b.handled[first].epoch)
  {
    var h := b.handled;
    assert forall i :: 0 <= i < first ==> h[..first][i] == h[i];
    TimesInEpochs(h, h[first].id, h[first].epoch, b.epoch);
  }

  // ---------------------------------------------------------------------
  // First handlings
  // ---------------------------------------------------------------------

  ghost predicate Seen(handled: seq<Handling>, id: nat) {
    exists i :: 0 <= i < |handled| && handled[i].id == id
  }

  /** `id` exceeds every event handled so far. */
  ghost predicate Newest(handled: seq<Handling>, id: nat) {
    forall i :: 0 <= i < |handled| ==> handled[i].id < id
  }

  /** An event handled for the first time is newer than all events handled before it. */
  ghost predicate FirstInOrder(handled: seq<Handling>) {
    forall j :: 0 <= j < |handled| && !Seen(handled[..j], handled[j].id) ==> Newest(handled[..j], handled[j].id)
  }

  /** Postponed events were handled; a queued one not yet handled is newer than all handled. */
  ghost predicate Frontier(b: Books) {
    && (forall id :: id in b.postponed ==> Seen(b.handled, id))
    && (forall id :: id in b.next && !Seen(b.handled, id) ==> Newest(b.handled, id))
  }

  lemma SeenGrows(handled: seq<Handling>, h: Handling, id: nat)
    ensures Seen(handled + [h], id) <==> Seen(handled, id) || id == h.id
  {
    var grown := handled + [h];
    assert grown[|handled|] == h;
    assert forall i :: 0 <= i < |handled| ==> grown[i] == handled[i];
  }

  lemma FirstInOrderGrows(handled: seq<Handling>, h: Handling)
    requires FirstInOrder(handled) && (Seen(handled, h.id) || Newest(handled, h.id))
    ensures FirstInOrder(handled + [h])
  {
    var grown := handled + [h];
    forall j | 0 <= j < |grown| && !Seen(grown[..j], grown[j].id) ensures Newest(grown[..j], grown[j].id) {
      if j < |handled| {
        assert grown[..j] == handled[..j] && grown[j] == handled[j];
      } else {
        assert grown[..j] == handled;
      }
    }
  }

  lemma TurnFirst(b: Books, x: seq<nat>, k: nat, n: nat, changed: bool)
    requires |x| <= 1 && Ordered(b.(next := x + b.next)) && Recorded(b)
    requires FirstInOrder(b.handled) && Frontier(b.(next := x + b.next))
    ensures FirstInOrder(Booked(b, x, k, n, changed).handled)
    ensures Frontier(Booked(b, x, k, n, changed))
  {
    var b0, b' := b.(next := x + b.next), Booked(b, x, k, n, changed);
    if x != [] {
      assert x[0] in b0.next;
      FirstInOrderGrows(b.handled, Handling(x[0], b.epoch));
    }
    forall id: nat ensures Seen(b'.handled, id) <==> Seen(b.handled, id) || id in x {
      if x != [] { SeenGrows(b.handled, Handling(x[0], b.epoch), id); }
    }
    forall id | id in b'.postponed ensures Seen(b'.handled, id) {
      TwiceElements(x, k);
      if id in Twice(x, k) { assert x == [id]; }
    }
    forall id | id in b'.next && !Seen(b'.handled, id) ensures Newest(b'.handled, id) {
      TurnQueue(b, x, k, n, changed, id);
      NewestAfter(b, x, id);
    }
  }

  lemma NewestAfter(b: Books, x: seq<nat>, id: nat)
    requires |x| <= 1 && Ordered(b.(next := x + b.next)) && Recorded(b) && Frontier(b.(next := x + b.next))
    requires id in b.next || b.counter <= id
    requires !Seen(b.handled, id)
    ensures Newest(b.handled, id) && (x != [] ==> x[0] < id)
  {
    var all := b.(next := x + b.next).Held();
    if x != [] {
      assert all[|b.postponed|] == x[0];
    }
    if id in b.next {
      assert id in x + b.next;
      var j :| 0 <= j < |b.next| && b.next[j] == id;
      assert all[|b.postponed| + |x| + j] == id;
    }
  }

  // ---------------------------------------------------------------------
  // Whole runs
  // ---------------------------------------------------------------------

  ghost predicate Sound(b: Books) {
    Ordered(b) && Ledger(b) && Retries(b) && FirstInOrder(b.handled) && Frontier(b)
  }

  lemma TurnSound(b: Books, x: seq<nat>, k: nat, n: nat, changed: bool)
    requires |x| <= 1 && k <= 1 && Sound(b.(next := x + b.next))
    ensures Sound(Booked(b, x, k, n, changed))
  {
    TurnOrder(b, x, k, n, changed);
    TurnLedger(b, x, k, n, changed);
    TurnRetries(b, x, k, n, changed);
    TurnFirst(b, x, k, n, changed);
  }

  /** A message taken from the mailbox gets the next number. */
  lemma Admit(b: Books)
    requires Sound(b) && b.next == []
    ensures Sound(b.(next := [b.counter], counter := b.counter + 1))
  {
    var b' := b.(next := [b.counter], counter := b.counter + 1);
    assert b.Held() == b.postponed;
    assert b'.Held() == b.postponed + Upto(b.counter, 1);
    AppendUpto(b.postponed, b.counter, 1);
    forall id: nat ensures id in b'.Held() <==> id in b.Held() || id == b.counter {
      InUpto(b.counter, 1, id);
    }
  }

  lemma TimerKeepsQueues(m: Machine, id: TimerId)
    ensures var m' := TimerGone(m, id);
            m' == m.(timers := m'.timers, stateTimer := m'.stateTimer, namedTimers := m'.namedTimers)
  {
  }

  lemma QueuedBooks(run: Run)
    requires run.machine.next != []
    ensures var m := run.machine;
            var taken := run.(machine := m.(next := m.next[1..]));
            BooksOf(taken).(next := Ids([m.next[0]]) + Ids(taken.machine.next)) == BooksOf(run)
  {
    var next := run.machine.next;
    assert next == [next[0]] + next[1..];
    IdsConcat([next[0]], next[1..]);
  }

  lemma MailedBooks(run: Run, taken: Run, item: Item)
    requires run.machine.next == [] && item.Numbered? && item.id == run.machine.counter
    requires taken == run.(mailbox := taken.mailbox, left := None, machine := run.machine.(counter := item.id + 1))
    ensures BooksOf(taken).(next := Ids([item]) + Ids(taken.machine.next))
         == BooksOf(run).(next := [item.id], counter := item.id + 1)
  {
    OneId(item);
  }

  /** On the books a turn handles what stands at the head of the queue or, when nothing is
      queued, the next number; or it handles no event. */
  ghost predicate BooksStep(b0: Books, b': Books, b: Books, x: seq<nat>, k: nat, n: nat, changed: bool) {
    || b' == b0
    || (&& |x| <= 1 && b' == Booked(b, x, k, n, changed)
        && (|| b.(next := x + b.next) == b0
            || (b0.next == [] && b.(next := x + b.next) == b0.(next := [b0.counter], counter := b0.counter + 1))))
  }

  /** Without an event the number of postponements is of no account. */
  lemma NothingPostponed(b: Books, k: nat, n: nat, changed: bool)
    ensures Booked(b, [], k, n, changed) == Booked(b, [], 0, n, changed)
  {
    TwiceElements([], k);
    assert b.done + {} == b.done;
  }

  lemma BooksStepSound(b0: Books, b': Books, b: Books, x: seq<nat>, k: nat, n: nat, changed: bool)
    requires Sound(b0) && (k <= 1 || x == []) && BooksStep(b0, b', b, x, k, n, changed)
    ensures Sound(b')
  {
    if b' != b0 {
      if b.(next := x + b.next) != b0 {
        Admit(b0);
      }
      if x == [] { NothingPostponed(b, k, n, changed); }
      TurnSound(b, x, if x == [] then 0 else k, n, changed);
    }
  }

  /** An event postponed twice in its turn. */
  lemma BooksStepTwice(b0: Books, b': Books, b: Books, x: seq<nat>, k: nat, n: nat, changed: bool)
    requires Sound(b0) && k > 1 && x != [] && BooksStep(b0, b', b, x, k, n, changed) && b' != b0
    ensures !Ordered(b')
  {
    if b.(next := x + b.next) != b0 {
      Admit(b0);
    }
    TurnOrder(b, x, k, n, changed);
  }

  /** The next turn handles an event, not an enter entry or another message, or nothing. */
  predicate TakesEvent(run: Run) {
    var m := run.machine;
    if m.next != [] then m.next[0].Numbered? else run.mailbox != [] && run.mailbox[0].EventMessage?
  }

  lemma QueuedTurn(run: Run, taken: Run, item: Item, r: Result)
    requires run.machine.next != [] && item == run.machine.next[0] && !TakeTurn(run, r).stopped
    requires taken == run.(machine := run.machine.(next := run.machine.next[1..]))
    ensures BooksStep(BooksOf(run), BooksOf(TakeTurn(run, r)), BooksOf(taken), Ids([item]), PostponesOf(r),
                      |Injected(ActionsOf(r), taken.machine.counter)|, Changes(taken.machine, item, r))
  {
    QueuedBooks(run);
    HandleBooks(taken, item, r);
    OneId(item);
  }

  lemma MailedTurn(run: Run, taken: Run, item: Item, r: Result)
    requires run.machine.next == [] && run.mailbox != [] && run.mailbox[0].EventMessage? && !TakeTurn(run, r).stopped
    requires item == Numbered(run.machine.counter, run.mailbox[0].ty, run.mailbox[0].content)
    requires taken == run.(mailbox := run.mailbox[1..], left := None,
                           machine := run.machine.(counter := run.machine.counter + 1))
    ensures BooksStep(BooksOf(run), BooksOf(TakeTurn(run, r)), BooksOf(taken), Ids([item]), PostponesOf(r),
                      |Injected(ActionsOf(r), taken.machine.counter)|, Changes(taken.machine, item, r))
  {
    MailedBooks(run, taken, item);
    HandleBooks(taken, item, r);
    OneId(item);
  }

  lemma TurnBooks(run: Run, r: Result) returns (b: Books, x: seq<nat>, k: nat, n: nat, changed: bool)
    requires !TakeTurn(run, r).stopped
    ensures k == PostponesOf(r) && BooksStep(BooksOf(run), BooksOf(TakeTurn(run, r)), b, x, k, n, changed)
    ensures x != [] <==> TakesEvent(run)
    ensures x != [] ==> |TakeTurn(run, r).handled| == |run.handled| + 1
  {
    var m := run.machine;
    b, x, k, n, changed := BooksOf(run), [], PostponesOf(r), 0, false;
    if m.next != [] {
      var item, taken := m.next[0], run.(machine := m.(next := m.next[1..]));
      QueuedTurn(run, taken, item, r);
      OneId(item);
      b, x := BooksOf(taken), Ids([item]);
      n, changed := |Injected(ActionsOf(r), b.counter)|, Changes(taken.machine, item, r);
    } else if run.mailbox != [] && run.mailbox[0].EventMessage? {
      var item := Numbered(m.counter, run.mailbox[0].ty, run.mailbox[0].content);
      var taken := run.(mailbox := run.mailbox[1..], left := None, machine := m.(counter := m.counter + 1));
      MailedTurn(run, taken, item, r);
      OneId(item);
      b, x := BooksOf(taken), Ids([item]);
      n, changed := |Injected(ActionsOf(r), b.counter)|, Changes(taken.machine, item, r);
    }
  }

  /** The step is not a turn that handles an event and postpones it more than once. */
  predicate Once(run: Run, step: Step) {
    step.Turn? && TakesEvent(run) ==> PostponesOf(step.result) <= 1
  }

  lemma NextSound(run: Run, step: Step)
    requires Sound(BooksOf(run)) && !Next(run, step).stopped && Once(run, step)
    ensures Sound(BooksOf(Next(run, step)))
  {
    if step.Turn? {
      var b, x, k, n, changed := TurnBooks(run, step.result);
      BooksStepSound(BooksOf(run), BooksOf(Next(run, step)), b, x, k, n, changed);
    } else {
      if step.TimerEnds? { TimerKeepsQueues(run.machine, step.timer); }
      assert BooksOf(Next(run, step)) == BooksOf(run);
    }
  }

  lemma NextTwice(run: Run, step: Step)
    requires Sound(BooksOf(run)) && !run.stopped && !Next(run, step).stopped && !Once(run, step)
    ensures !Ordered(BooksOf(Next(run, step)))
  {
    var b, x, k, n, changed := TurnBooks(run, step.result);
    BooksStepTwice(BooksOf(run), BooksOf(Next(run, step)), b, x, k, n, changed);
  }

  /** No turn postpones the event it handles more than once. */
  ghost predicate PostponedOnce(run: Run, steps: seq<Step>)
    decreases |steps|
  {
    steps == [] || (Once(run, steps[0]) && PostponedOnce(Next(run, steps[0]), steps[1..]))
  }

  lemma {:induction false} StoppedStays(run: Run, steps: seq<Step>)
    requires run.stopped
    ensures After(run, steps) == run
    decreases |steps|
  {
    if steps != [] {
      StoppedStays(run, steps[1..]);
    }
  }

  lemma {:induction false} RunSound(run: Run, steps: seq<Step>)
    requires Sound(BooksOf(run)) && PostponedOnce(run, steps) && !After(run, steps).stopped
    ensures Sound(BooksOf(After(run, steps)))
    decreases |steps|
  {
    if steps != [] {
      if Next(run, steps[0]).stopped {
        StoppedStays(Next(run, steps[0]), steps[1..]);
      } else {
        NextSound(run, steps[0]);
        RunSound(Next(run, steps[0]), steps[1..]);
      }
    }
  }

  /** With no current event nothing is postponed. */
  lemma {:induction false} InitActionsOnQueues(m: Machine, actions: seq<Action>)
    ensures var m' := ApplyActions(m, actions, None).machine;
            && m'.postponed == m.postponed
            && m'.next == m.next + Injected(actions, m.counter)
            && m'.counter == m.counter + |Injected(actions, m.counter)|
            && m'.state == m.state && m'.stateEnter == m.stateEnter
    decreases |actions|
  {
    if !(actions == [] || actions[0].StopAction?) {
      ActionOnQueues(m, actions[0], None);
      InitActionsOnQueues(ApplyAction(m, actions[0], None), actions[1..]);
      if actions[0].NextEvent? {
        var injected := Numbered(m.counter, actions[0].ty, actions[0].content);
        assert m.next + [injected] + Injected(actions[1..], m.counter + 1)
            == m.next + ([injected] + Injected(actions[1..], m.counter + 1));
      }
    }
  }

  lemma UptoOrdered(n: nat)
    ensures Increasing(Upto(0, n)) && Below(Upto(0, n), n)
  {
  }

  /** Nothing handled, and the events `0..n` queued. */
  lemma FreshSound(b: Books, n: nat)
    requires b == Books([], Upto(0, n), n, {}, [], 0)
    ensures Sound(b)
  {
    assert b.Held() == Upto(0, n);
    UptoOrdered(n);
    FreshLedger(b, n);
  }

  lemma FreshLedger(b: Books, n: nat)
    requires b.Held() == Upto(0, n) && b.done == {} && b.counter == n
    ensures Ledger(b)
  {
    forall id: int ensures id in b.Held() <==> 0 <= id < n {
      InUpto(0, n, id);
    }
  }

  lemma EnteredIds(blank: Machine, state: State, r: Result)
    requires blank.next == [] && blank.postponed == [] && blank.counter == 0 && blank.state == state
    requires !Process(blank, Enter(state), r).stopped
    ensures var m := Process(blank, Enter(state), r).machine;
            Ids(m.postponed) == [] && Ids(m.next) == Upto(0, m.counter)
  {
    ProcessIds(blank, Enter(state), r);
    TwiceElements([], PostponesOf(r));
  }

  lemma InitIds(m: Machine, init: seq<Action>)
    requires Ids(m.postponed) == [] && Ids(m.next) == Upto(0, m.counter)
    ensures var m' := ApplyActions(m, init, None).machine;
            Ids(m'.postponed) == [] && Ids(m'.next) == Upto(0, m'.counter)
  {
    InitActionsOnQueues(m, init);
    IdsOfInjected(init, m.counter);
    IdsConcat(m.next, Injected(init, m.counter));
    var n := |Injected(init, m.counter)|;
    assert Upto(0, m.counter) + Upto(m.counter, n) == Upto(0, m.counter + n);
  }

  lemma StartSound(stateEnter: bool, state: State, data: Data, r: Result, init: seq<Action>, mailbox: seq<Message>)
    requires !Started(stateEnter, state, data, r, init, mailbox).stopped
    ensures Sound(BooksOf(Started(stateEnter, state, data, r, init, mailbox)))
  {
    var blank := Machine(stateEnter, state, data, [], [], None, map[], map[], 0, 0);
    if stateEnter {
      EnteredIds(blank, state, r);
      InitIds(Process(blank, Enter(state), r).machine, init);
    } else {
      assert Ids(blank.next) == Upto(0, 0);
      InitIds(blank, init);
    }
    var b := BooksOf(Started(stateEnter, state, data, r, init, mailbox));
    FreshSound(b, b.counter);
  }

  lemma FromStart(start: Run, stateEnter: bool, state: State, data: Data, r: Result,
                  init: seq<Action>, mailbox: seq<Message>, steps: seq<Step>)
    requires start == Started(stateEnter, state, data, r, init, mailbox)
    requires PostponedOnce(start, steps) && !After(start, steps).stopped
    ensures Sound(BooksOf(After(start, steps)))
  {
    if start.stopped {
      StoppedStays(start, steps);
    }
    StartSound(stateEnter, state, data, r, init, mailbox);
    RunSound(start, steps);
  }

  /** The events held are strictly in the order they entered at every moment of the run. */
  ghost predicate OrderedThroughout(run: Run, steps: seq<Step>)
    decreases |steps|
  {
    Ordered(BooksOf(run)) && (steps == [] || OrderedThroughout(Next(run, steps[0]), steps[1..]))
  }

  lemma {:induction false} OrderedExactlyWhen(run: Run, steps: seq<Step>)
    requires Sound(BooksOf(run)) && !After(run, steps).stopped
    ensures OrderedThroughout(run, steps) <==> PostponedOnce(run, steps)
    decreases |steps|
  {
    if steps != [] {
      if run.stopped { StoppedStays(run, steps); }
      if Next(run, steps[0]).stopped { StoppedStays(Next(run, steps[0]), steps[1..]); }
      if Once(run, steps[0]) {
        NextSound(run, steps[0]);
        OrderedExactlyWhen(Next(run, steps[0]), steps[1..]);
      } else {
        NextTwice(run, steps[0]);
      }
    }
  }

  /** From the start, a run keeps the events it holds strictly in order at every moment if
      and only if no turn postpones its event more than once. */
  lemma OrderExactlyWhen(stateEnter: bool, state: State, data: Data, r: Result,
                         init: seq<Action>, mailbox: seq<Message>, steps: seq<Step>)
    requires !After(Started(stateEnter, state, data, r, init, mailbox), steps).stopped
    ensures var start := Started(stateEnter, state, data, r, init, mailbox);
            OrderedThroughout(start, steps) <==> PostponedOnce(start, steps)
  {
    var start := Started(stateEnter, state, data, r, init, mailbox);
    if start.stopped {
      StoppedStays(start, steps);
    }
    StartSound(stateEnter, state, data, r, init, mailbox);
    OrderedExactlyWhen(start, steps);
  }

  /** In every run whose turns postpone at most once, until the machine stops: the events
      held, postponed ones first, are strictly in the order they entered, and all of them
      entered before anything still in the mailbox. */
  lemma EventOrder(stateEnter: bool, state: State, data: Data, r: Result,
                   init: seq<Action>, mailbox: seq<Message>, steps: seq<Step>)
    requires PostponedOnce(Started(stateEnter, state, data, r, init, mailbox), steps)
    requires !After(Started(stateEnter, state, data, r, init, mailbox), steps).stopped
    ensures var m := After(Started(stateEnter, state, data, r, init, mailbox), steps).machine;
            Increasing(Ids(m.postponed + m.next)) && Below(Ids(m.postponed + m.next), m.counter)
  {
    var start := Started(stateEnter, state, data, r, init, mailbox);
    FromStart(start, stateEnter, state, data, r, init, mailbox, steps);
    var m := After(start, steps).machine;
    IdsConcat(m.postponed, m.next);
  }

  /** In the same runs every event that entered is completed, or held exactly once, and
      never both; and events are first handled in the order they entered. */
  lemma ExactlyOnce(stateEnter: bool, state: State, data: Data, r: Result,
                    init: seq<Action>, mailbox: seq<Message>, steps: seq<Step>, id: nat)
    requires PostponedOnce(Started(stateEnter, state, data, r, init, mailbox), steps)
    requires !After(Started(stateEnter, state, data, r, init, mailbox), steps).stopped
    ensures var run := After(Started(stateEnter, state, data, r, init, mailbox), steps);
            && Held(run, id) == (if id < run.machine.counter && id !in run.done then 1 else 0)
            && FirstInOrder(run.handled)
  {
    var start := Started(stateEnter, state, data, r, init, mailbox);
    FromStart(start, stateEnter, state, data, r, init, mailbox, steps);
    var run := After(start, steps);
    CountIncreasing(BooksOf(run).Held(), id);
  }

  /** How often an event lies in the queues. */
  function Held(run: Run, id: nat): nat {
    multiset(Ids(run.machine.postponed) + Ids(run.machine.next))[id]
  }

  lemma {:induction false} CountIncreasing(xs: seq<nat>, id: nat)
    requires Increasing(xs)
    ensures multiset(xs)[id] == if id in xs then 1 else 0
  {
    if xs != [] {
      var last := |xs| - 1;
      CountIncreasing(xs[..last], id);
      assert xs == xs[..last] + [xs[last]];
      assert forall i :: 0 <= i < last ==> xs[..last][i] == xs[i];
    }
  }

  /** In the same runs an event is handled at most once more often than the state changed
      since its first handling, and any two handlings are separated by a state change. */
  lemma BoundedRetries(stateEnter: bool, state: State, data: Data, r: Result,
                       init: seq<Action>, mailbox: seq<Message>, steps: seq<Step>, first: nat)
    requires PostponedOnce(Started(stateEnter, state, data, r, init, mailbox), steps)
    requires !After(Started(stateEnter, state, data, r, init, mailbox), steps).stopped
    requires var handled := After(Started(stateEnter, state, data, r, init, mailbox), steps).handled;
             first < |handled| && !Seen(handled[..first], handled[first].id)
    ensures var run := After(Started(stateEnter, state, data, r, init, mailbox), steps);
            && Separated(run.handled)
            && Times(run.handled, run.handled[first].id) <= 1 + (run.epoch - run.handled[first].epoch)
  {
    var start := Started(stateEnter, state, data, r, init, mailbox);
    FromStart(start, stateEnter, state, data, r, init, mailbox, steps);
    TimesBound(BooksOf(After(start, steps)), first);
  }

  // ---------------------------------------------------------------------
  // Enter entries
  // ---------------------------------------------------------------------

  ghost predicate NoEnter(items: seq<Item>) {
    forall i :: 0 <= i < |items| ==> !items[i].Enter?
  }

  /** An enter entry stands only at the head of the queue, and it stands there exactly when
      the last turn changed the state, naming the state that turn left. */
  ghost predicate EnterAtHead(run: Run) {
    var m := run.machine;
    && NoEnter(m.postponed)
    && (forall i :: 0 < i < |m.next| ==> !m.next[i].Enter?)
    && (forall s :: m.next != [] && m.next[0] == Enter(s) <==> m.stateEnter && run.left == Some(s))
  }

  lemma NoEnterConcat(a: seq<Item>, b: seq<Item>)
    requires NoEnter(b)
    ensures NoEnter(a + b) <==> NoEnter(a)
  {
    assert forall i :: 0 <= i < |a| ==> (a + b)[i] == a[i];
  }

  lemma ProcessItems(m: Machine, item: Item, r: Result)
    requires !Process(m, item, r).stopped
    ensures var m' := Process(m, item, r).machine;
            var held := m.postponed + Copies(item, PostponesOf(r));
            var queued := m.next + Injected(ActionsOf(r), m.counter);
            && m'.stateEnter == m.stateEnter
            && m'.postponed == (if Changes(m, item, r) then [] else held)
            && m'.next == (if Changes(m, item, r) then (if m.stateEnter then [Enter(m.state)] else []) + held + queued
                           else queued)
  {
    ActionsOnQueues(if Changes(m, item, r) then CancelStateTimer(m) else m, ActionsOf(r), item);
  }

  /** The queue after a state change: the enter entry, if there is one, and no other. */
  lemma EnterInFront(enter: seq<Item>, rest: seq<Item>)
    requires |enter| <= 1 && NoEnter(rest)
    ensures forall i :: 0 < i < |enter + rest| ==> !(enter + rest)[i].Enter?
    ensures enter == [] ==> NoEnter(enter + rest)
  {
    assert forall i :: |enter| <= i < |enter + rest| ==> (enter + rest)[i] == rest[i - |enter|];
  }

  /** A turn that postpones no enter entry leaves them in their place. */
  lemma HandleKeepsEnter(run: Run, item: Item, r: Result)
    requires NoEnter(run.machine.postponed) && NoEnter(run.machine.next) && !Handle(run, item, r).stopped
    requires !(item.Enter? && 1 <= PostponesOf(r))
    ensures EnterAtHead(Handle(run, item, r))
  {
    var m := run.machine;
    var held, queued := m.postponed + Copies(item, PostponesOf(r)), m.next + Injected(ActionsOf(r), m.counter);
    ProcessItems(m, item, r);
    InjectedNumbers(ActionsOf(r), m.counter);
    NoEnterConcat(m.next, Injected(ActionsOf(r), m.counter));
    NoEnterConcat(m.postponed, Copies(item, PostponesOf(r)));
    NoEnterConcat(held, queued);
    if Changes(m, item, r) {
      var enter := if m.stateEnter then [Enter(m.state)] else [];
      EnterInFront(enter, held + queued);
      Assoc(enter, held, queued);
    }
  }

  /** A turn keeps enter entries in their place exactly when it does not postpone one. */
  lemma HandleEnter(run: Run, item: Item, r: Result)
    requires NoEnter(run.machine.postponed) && NoEnter(run.machine.next) && !Handle(run, item, r).stopped
    ensures EnterAtHead(Handle(run, item, r)) <==> !(item.Enter? && 1 <= PostponesOf(r))
  {
    if item.Enter? && 1 <= PostponesOf(r) {
      var m := run.machine;
      ProcessItems(m, item, r);
      assert (m.postponed + Copies(item, PostponesOf(r)))[|m.postponed|] == item;
    } else {
      HandleKeepsEnter(run, item, r);
    }
  }

  /** The step is not a turn that handles an enter entry and postpones it. */
  predicate LeavesEnter(run: Run, step: Step) {
    step.Turn? && run.machine.next != [] && run.machine.next[0].Enter? ==> PostponesOf(step.result) == 0
  }

  /** In no turn of the run does the answer to an enter entry postpone it. */
  ghost predicate EnterNotPostponed(run: Run, steps: seq<Step>)
    decreases |steps|
  {
    steps == [] || (LeavesEnter(run, steps[0]) && EnterNotPostponed(Next(run, steps[0]), steps[1..]))
  }

  lemma NextEnter(run: Run, step: Step)
    requires EnterAtHead(run) && !Next(run, step).stopped && !run.stopped
    ensures EnterAtHead(Next(run, step)) <==> LeavesEnter(run, step)
  {
    var m := run.machine;
    match step
    case Arrive(_) =>
    case TimerEnds(id, _) => TimerKeepsQueues(m, id);
    case Turn(r) =>
      if m.next != [] {
        HandleEnter(run.(machine := m.(next := m.next[1..])), m.next[0], r);
      } else if run.mailbox != [] && run.mailbox[0].EventMessage? {
        var item := Numbered(m.counter, run.mailbox[0].ty, run.mailbox[0].content);
        HandleEnter(run.(mailbox := run.mailbox[1..], left := None, machine := m.(counter := m.counter + 1)), item, r);
      }
  }

  /** Enter entries are in their place at every moment of the run. */
  ghost predicate EnterThroughout(run: Run, steps: seq<Step>)
    decreases |steps|
  {
    EnterAtHead(run) && (steps == [] || EnterThroughout(Next(run, steps[0]), steps[1..]))
  }

  /** Enter entries over a whole run: they keep their place exactly as long as none is
      postponed. */
  lemma {:induction false} EnterEntries(run: Run, steps: seq<Step>)
    requires EnterAtHead(run) && !After(run, steps).stopped
    ensures EnterThroughout(run, steps) <==> EnterNotPostponed(run, steps)
    ensures EnterNotPostponed(run, steps) ==> EnterAtHead(After(run, steps))
    decreases |steps|
  {
    if steps != [] {
      if run.stopped { StoppedStays(run, steps); }
      var run' := Next(run, steps[0]);
      if run'.stopped { StoppedStays(run', steps[1..]); }
      NextEnter(run, steps[0]);
      if LeavesEnter(run, steps[0]) {
        EnterEntries(run', steps[1..]);
      }
    }
  }

  lemma EnterFromStart(stateEnter: bool, state: State, data: Data, r: Result, init: seq<Action>, mailbox: seq<Message>)
    requires !Started(stateEnter, state, data, r, init, mailbox).stopped
    ensures EnterAtHead(Started(stateEnter, state, data, r, init, mailbox)) <==> !(stateEnter && 1 <= PostponesOf(r))
  {
    var blank := Machine(stateEnter, state, data, [], [], None, map[], map[], 0, 0);
    var entered := if stateEnter then Process(blank, Enter(state), r).machine else blank;
    if stateEnter {
      HandleEnter(Run(blank, mailbox, false, {}, [], 0, None), Enter(state), r);
      ProcessItems(blank, Enter(state), r);
      InjectedNumbers(ActionsOf(r), 0);
    }
    InitActionsOnQueues(entered, init);
    InjectedNumbers(init, entered.counter);
    assert NoEnter(entered.next);
    NoEnterConcat(entered.next, Injected(init, entered.counter));
  }

  // ---------------------------------------------------------------------
  // State and data
  // ---------------------------------------------------------------------

  /** The last state and data change of a turn is what the callback asked for; but an enter
      callback never changes the state, whatever it answers, and a turn that stops the
      machine changes neither. Postponed events come back only when the new state is another. */
  lemma TurnState(m: Machine, item: Item, r: Result)
    ensures var m' := Process(m, item, r).machine;
            var moves := r.NextState? && !item.Enter? && !item.ty.EnterType?;
            && (Changes(m, item, r) <==> moves && r.state != m.state)
            && if Process(m, item, r).stopped then m'.state == m.state && m'.data == m.data
               else
                 && m'.state == (if moves then r.state else m.state)
                 && m'.data == (if r.NextState? || r.KeepState? then r.data else m.data)
  {
    ActionsOnQueues(if Changes(m, item, r) then CancelStateTimer(m) else m, ActionsOf(r), item);
  }
}
