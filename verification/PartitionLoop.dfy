/** The demand loop of a producer with a partition dispatcher: what it takes to make
    progress, and exactly when the loop never ends. */
module PartitionLoop {
  import opened Identifiers
  import opened Seqs
  import opened Wrappers

  import opened Dispatch
  import opened OutletRuns
  import opened Outlets
  import opened Tables

  /** Under the partition dispatcher one production lowers the pending demand exactly
      when it holds an event some subscriber can take. */
  lemma {:induction false} PartitionProductionProgress(t: Table, pmap: map<int, SubId>, hash: Event -> int,
                                                       subs: seq<SubId>, events: seq<Event>)
    ensures var r := ServeByPartition(t, pmap, hash, subs, events);
            && Total(r.demand) <= Total(t)
            && (Total(r.demand) < Total(t) <==> exists i :: 0 <= i < |events| && Takes(t, pmap, subs, hash(events[i])))
  {
    if events != [] {
      var p := hash(events[0]);
      if Takes(t, pmap, subs, p) {
        var t' := t[pmap[p] := Get(t, pmap[p]) - 1];
        TotalUpdate(t, pmap[p], Get(t, pmap[p]) - 1);
        PartitionProductionProgress(t', pmap, hash, subs, events[1..]);
        assert Takes(t, pmap, subs, hash(events[0]));
      } else {
        PartitionProductionProgress(t, pmap, hash, subs, events[1..]);
        if i :| 0 <= i < |events| && Takes(t, pmap, subs, hash(events[i])) {
          assert events[1..][i - 1] == events[i];
        }
        if i :| 0 <= i < |events[1..]| && Takes(t, pmap, subs, hash(events[1..][i])) {
          assert events[i + 1] == events[1..][i];
        }
      }
    }
  }

  /** A non-empty answer of which no subscriber can take anything. */
  ghost predicate Stuck(o: Outlet, events: seq<Event>) {
    o.policy.ByPartition? && events != [] &&
    forall i :: 0 <= i < |events| ==> !Takes(o.demand, o.partitionMap, o.subs, o.policy.hash(events[i]))
  }

  lemma StuckDispatch(o: Outlet, events: seq<Event>)
    requires Stuck(o, events) && o.subs != []
    ensures DispatchEvents(o, events) == Nothing(o.(buffer := o.buffer + events))
  {
    NobodyTakes(o.demand, o.partitionMap, o.policy.hash, o.subs, events);
    NothingToSend(o.subs, o.peer);
  }

  /** So the demand loop of a partition producer need not end: however many stuck
      answers it gets, it consumes them all, the pending demand stays where it was
      and everything lands in the buffer. */
  lemma {:induction false} PartitionLoopStalls(o: Outlet, batches: seq<seq<Event>>)
    requires o.subs != [] && 0 < Pending(o)
    requires forall i :: 0 <= i < |batches| ==> Stuck(o, batches[i])
    ensures Produce(o, batches) == Effect(o.(buffer := o.buffer + Joined(batches)), [], [], Joined(batches))
    decreases |batches|
  {
    if batches == [] {
      Units(o.buffer);
    } else {
      assert Stuck(o, batches[0]);
      var o' := o.(buffer := o.buffer + batches[0]);
      StuckDispatch(o, batches[0]);
      forall i | 0 <= i < |batches[1..]| ensures Stuck(o', batches[1..][i]) {
        assert Stuck(o, batches[i + 1]);
      }
      assert Pending(o') == Pending(o);
      PartitionLoopStalls(o', batches[1..]);
      Assoc(o.buffer, batches[0], Joined(batches[1..]));
    }
  }

  function Joined(batches: seq<seq<Event>>): seq<Event> {
    if batches == [] then [] else batches[0] + Joined(batches[1..])
  }

  lemma {:induction false} NobodyTakes(t: Table, pmap: map<int, SubId>, hash: Event -> int,
                                       subs: seq<SubId>, events: seq<Event>)
    requires forall i :: 0 <= i < |events| ==> !Takes(t, pmap, subs, hash(events[i]))
    ensures ServeByPartition(t, pmap, hash, subs, events) == Served([], events, t)
  {
    if events != [] {
      forall i | 0 <= i < |events[1..]| ensures !Takes(t, pmap, subs, hash(events[1..][i])) {
        assert events[1..][i] == events[i + 1];
      }
      NobodyTakes(t, pmap, hash, subs, events[1..]);
    }
  }

  lemma {:induction false} NothingToSend(subs: seq<SubId>, peer: map<SubId, Pid>)
    ensures SendsFor(subs, peer, []) == []
  {
    if subs != [] {
      NothingToSend(subs[1..], peer);
    }
  }

  // ---------------------------------------------------------------------
  // How long the loop can take
  // ---------------------------------------------------------------------

  /** One call: a stuck answer leaves everything but the buffer, any other non-empty
      answer lowers the pending demand, under every dispatcher. */
  lemma OneCall(o: Outlet, events: seq<Event>)
    requires Valid(o) && 0 < Pending(o) && events != []
    ensures var o' := DispatchEvents(o, events).outlet;
            && Valid(o') && 0 <= Pending(o')
            && (if Stuck(o, events) then o' == o.(buffer := o'.buffer) else Pending(o') < Pending(o))
  {
    var o' := DispatchEvents(o, events).outlet;
    DispatchAccounts(o, events);
    PendingNeedsSubscribers(o);
    if o.policy.ByPartition? {
      TotalBounds(o'.demand);
      PartitionProductionProgress(o.demand, o.partitionMap, o.policy.hash, o.subs, events);
      if Stuck(o, events) {
        StuckDispatch(o, events);
      }
    } else {
      ProductionLowersPending(o, events);
    }
  }

  /** The number of answers of the script that the loop consumes. */
  ghost function Consumed(o: Outlet, batches: seq<seq<Event>>): nat
    decreases |batches|
  {
    if Pending(o) <= 0 || batches == [] || batches[0] == [] then 0
    else 1 + Consumed(DispatchEvents(o, batches[0]).outlet, batches[1..])
  }

  /** The number of stuck answers among them. */
  ghost function Wasted(o: Outlet, batches: seq<seq<Event>>): nat
    decreases |batches|
  {
    if Pending(o) <= 0 || batches == [] || batches[0] == [] then 0
    else (if Stuck(o, batches[0]) then 1 else 0) + Wasted(DispatchEvents(o, batches[0]).outlet, batches[1..])
  }

  /** The loop consumes no more answers than there is pending demand, stuck ones aside. */
  lemma {:induction false} LoopIsBounded(o: Outlet, batches: seq<seq<Event>>)
    requires Valid(o)
    ensures Consumed(o, batches) <= Pending(o) + Wasted(o, batches)
    decreases |batches|
  {
    TotalBounds(o.demand);
    LeastIsMinimum(o.demand);
    if !(Pending(o) <= 0 || batches == [] || batches[0] == []) {
      OneCall(o, batches[0]);
      LoopIsBounded(DispatchEvents(o, batches[0]).outlet, batches[1..]);
    }
  }

  // ---------------------------------------------------------------------
  // When the loop never ends
  // ---------------------------------------------------------------------

  /** The stage after the calls number `i` up to `n`, where call `i` of `handle_demand`
      returns `callback(i)`. */
  ghost function AfterCalls(o: Outlet, callback: nat -> seq<Event>, i: nat, n: nat): Outlet
    requires i <= n
    decreases n - i
  {
    if i == n then o else AfterCalls(DispatchEvents(o, callback(i)).outlet, callback, i + 1, n)
  }

  /** The stage when the loop has handled the answers to its first `n` calls. */
  ghost function At(o: Outlet, callback: nat -> seq<Event>, n: nat): Outlet {
    AfterCalls(o, callback, 0, n)
  }

  lemma {:induction false} LastCall(o: Outlet, callback: nat -> seq<Event>, i: nat, n: nat)
    requires i <= n
    ensures AfterCalls(o, callback, i, n + 1) == DispatchEvents(AfterCalls(o, callback, i, n), callback(n)).outlet
    decreases n - i
  {
    if i < n {
      LastCall(DispatchEvents(o, callback(i)).outlet, callback, i + 1, n);
    }
  }

  /** The loop makes its `n`-th call, and the answer does not end it. */
  ghost predicate GoesOn(o: Outlet, callback: nat -> seq<Event>, n: nat) {
    0 < Pending(At(o, callback, n)) && callback(n) != []
  }

  ghost predicate NeverEnds(o: Outlet, callback: nat -> seq<Event>) {
    forall n: nat {:trigger GoesOn(o, callback, n)} :: GoesOn(o, callback, n)
  }

  /** The loop comes to its `n`-th call; there is demand then, and from there on nobody can
      take any of the answers. */
  ghost predicate StuckFrom(o: Outlet, callback: nat -> seq<Event>, n: nat) {
    && (forall i: nat :: i < n ==> GoesOn(o, callback, i))
    && 0 < Pending(At(o, callback, n))
    && (forall i: nat :: n <= i ==> Stuck(At(o, callback, n), callback(i)))
  }

  /** Filling the buffer changes nothing about who can take what. */
  lemma StuckAlike(o: Outlet, o': Outlet, events: seq<Event>)
    requires o' == o.(buffer := o'.buffer)
    ensures Pending(o') == Pending(o) && (Stuck(o', events) <==> Stuck(o, events))
  {
  }

  lemma CallAt(o: Outlet, callback: nat -> seq<Event>, n: nat)
    requires Valid(At(o, callback, n)) && GoesOn(o, callback, n)
    ensures var o1, o2 := At(o, callback, n), At(o, callback, n + 1);
            && Valid(o2) && 0 <= Pending(o2)
            && (if Stuck(o1, callback(n)) then o2 == o1.(buffer := o2.buffer) else Pending(o2) < Pending(o1))
  {
    OneCall(At(o, callback, n), callback(n));
    LastCall(o, callback, 0, n);
  }

  /** While the answers are stuck only the buffer moves. */
  lemma {:induction false} StuckStays(o: Outlet, callback: nat -> seq<Event>, n: nat, m: nat)
    requires Valid(At(o, callback, n)) && 0 < Pending(At(o, callback, n)) && n <= m
    requires forall i: nat :: n <= i < m ==> Stuck(At(o, callback, n), callback(i))
    ensures var o1, o2 := At(o, callback, n), At(o, callback, m); Valid(o2) && o2 == o1.(buffer := o2.buffer)
    decreases m
  {
    if n < m {
      StuckStays(o, callback, n, m - 1);
      StuckAlike(At(o, callback, n), At(o, callback, m - 1), callback(m - 1));
      CallAt(o, callback, m - 1);
    }
  }

  lemma {:induction false} StaysValid(o: Outlet, callback: nat -> seq<Event>, n: nat)
    requires Valid(o) && forall i: nat :: i < n ==> GoesOn(o, callback, i)
    ensures Valid(At(o, callback, n))
    decreases n
  {
    if n > 0 {
      StaysValid(o, callback, n - 1);
      CallAt(o, callback, n - 1);
    }
  }

  /** If an answer to come is not stuck now, the pending demand falls with the first such. */
  lemma {:induction false} FallsBy(o: Outlet, callback: nat -> seq<Event>, k: nat, j: nat) returns (n: nat)
    requires NeverEnds(o, callback) && Valid(At(o, callback, k)) && k <= j
    requires !Stuck(At(o, callback, k), callback(j))
    ensures Valid(At(o, callback, n)) && 0 <= Pending(At(o, callback, n)) < Pending(At(o, callback, k))
    decreases j
  {
    if i: nat :| k <= i < j && !Stuck(At(o, callback, k), callback(i)) {
      n := FallsBy(o, callback, k, i);
    } else {
      assert GoesOn(o, callback, k) && GoesOn(o, callback, j);
      StuckStays(o, callback, k, j);
      StuckAlike(At(o, callback, k), At(o, callback, j), callback(j));
      CallAt(o, callback, j);
      n := j + 1;
    }
  }

  /** So a loop that never ends comes to a call from which all answers are stuck. */
  lemma {:induction false} ComesToStuck(o: Outlet, callback: nat -> seq<Event>, k: nat) returns (n: nat)
    requires NeverEnds(o, callback) && Valid(At(o, callback, k))
    ensures StuckFrom(o, callback, n)
    decreases Pending(At(o, callback, k))
  {
    assert GoesOn(o, callback, k);
    if j: nat :| k <= j && !Stuck(At(o, callback, k), callback(j)) {
      var k' := FallsBy(o, callback, k, j);
      n := ComesToStuck(o, callback, k');
    } else {
      n := k;
    }
  }

  /** The demand loop runs for ever if and only if it comes to a call from which on every
      answer is non-empty and holds nothing that any subscriber can take, while there is
      demand. Under the other dispatchers no answer is of this kind, so the loop ends. */
  lemma LoopNeverEnds(o: Outlet, callback: nat -> seq<Event>)
    requires Valid(o)
    ensures NeverEnds(o, callback) <==> exists n: nat :: StuckFrom(o, callback, n)
  {
    if NeverEnds(o, callback) {
      var n := ComesToStuck(o, callback, 0);
    }
    if n: nat :| StuckFrom(o, callback, n) {
      StaysValid(o, callback, n);
      forall m: nat ensures GoesOn(o, callback, m) {
        if n <= m {
          StuckStays(o, callback, n, m);
          StuckAlike(At(o, callback, n), At(o, callback, m), callback(m));
        }
      }
    }
  }

  function Always(events: seq<Event>): nat -> seq<Event> {
    _ => events
  }

  /** Such a stage, from its start: partition `p` is subscribed to and one event asked for,
      and `handle_demand` always answers with an event of another partition. */
  lemma StuckFromStart(hash: Event -> int, s: SubId, consumer: Pid, p: int, e: Event)
    requires hash(e) != p
    ensures var o := Run(Start(ByPartition(hash)),
                         [SubscribeOp(s, consumer, Some(p)), DemandOp(s, 1, true, [])]).outlet;
            && Valid(o) && Pending(o) == 1 && Stuck(o, [e])
            && NeverEnds(o, Always([e]))
  {
    var t0 := Start(ByPartition(hash));
    var ops := [SubscribeOp(s, consumer, Some(p)), DemandOp(s, 1, true, [])];
    var t1 := Step(t0, ops[0]).value;
    var t2 := Step(t1, ops[1]).value;
    assert Run(t0, ops) == t2 by {
      assert ops[1..] == [ops[1]];
      assert Run(t1, ops[1..]) == Run(t2, []);
    }
    var o := Outlet(ByPartition(hash), [s], map[s := consumer], map[s := 1], map[p := s], []);
    assert t1.outlet == o.(demand := map[s := 0]);
    assert t2.outlet == o;
    TotalUpdate(map[], s, 1);
    assert map[][s := 1] == o.demand;
    assert Elements(o.subs) == {s};
    assert StuckFrom(o, Always([e]), 0);
    LoopNeverEnds(o, Always([e]));
  }
}
