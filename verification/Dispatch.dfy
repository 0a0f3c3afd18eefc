/** What the three dispatchers compute, as functions of the demand table, the
    ordered subscriber ids and the events; and what the routing guarantees. */
module Dispatch {
  import opened Seqs

  import opened Tables

  /** One batch handed to one subscriber. */
  datatype Slice = Slice(sub: SubId, batch: seq<Event>)

  /** The slices in the order they were cut, what could not be routed, and the new table. */
  datatype Served = Served(slices: seq<Slice>, leftover: seq<Event>, demand: Table)

  /** All events of the slices, in serving order. */
  function Flatten(slices: seq<Slice>): seq<Event> {
    if slices == [] then [] else slices[0].batch + Flatten(slices[1..])
  }

  /** What `result[sid]` holds after the slices were served. */
  function BatchFor(slices: seq<Slice>, s: SubId): seq<Event> {
    if slices == [] then []
    else if slices[0].sub == s then slices[0].batch + BatchFor(slices[1..], s)
    else BatchFor(slices[1..], s)
  }

  /** The dict a dispatcher returns: one (possibly empty) batch per subscriber. */
  function Routed(subs: seq<SubId>, slices: seq<Slice>): map<SubId, seq<Event>> {
    map s | s in subs :: BatchFor(slices, s)
  }

  lemma {:induction false} FlattenConcat(a: seq<Slice>, b: seq<Slice>)
    ensures Flatten(a + b) == Flatten(a) + Flatten(b)
  {
    if a == [] {
      Units(b);
      Units(Flatten(b));
    } else {
      FlattenConcat(a[1..], b);
      ConcatHead(a, b);
      Assoc(a[0].batch, Flatten(a[1..]), Flatten(b));
    }
  }

  lemma {:induction false} BatchForConcat(a: seq<Slice>, b: seq<Slice>, s: SubId)
    ensures BatchFor(a + b, s) == BatchFor(a, s) + BatchFor(b, s)
  {
    if a == [] {
      Units(b);
      Units(BatchFor(b, s));
    } else {
      BatchForConcat(a[1..], b, s);
      ConcatHead(a, b);
      Assoc(a[0].batch, BatchFor(a[1..], s), BatchFor(b, s));
    }
  }

  lemma {:induction false} BatchForAbsent(slices: seq<Slice>, s: SubId)
    requires forall i :: 0 <= i < |slices| ==> slices[i].sub != s
    ensures BatchFor(slices, s) == []
  {
    if slices != [] {
      BatchForAbsent(slices[1..], s);
    }
  }

  // ---------------------------------------------------------------------
  // DemandDispatcher
  // ---------------------------------------------------------------------

  predicate AnyPositive(t: Table, subs: seq<SubId>) {
    exists s :: s in subs && Get(t, s) > 0
  }

  /** `max((sid for sid in subs if demand > 0), key=demand)`: Python's `max` keeps the first maximum. */
  function Best(t: Table, subs: seq<SubId>): (best: SubId)
    requires AnyPositive(t, subs)
    ensures best in subs && best in t && t[best] > 0
  {
    if |subs| == 1 || !AnyPositive(t, subs[..|subs| - 1]) then
      assert subs == subs[..|subs| - 1] + [subs[|subs| - 1]];
      subs[|subs| - 1]
    else
      var earlier := Best(t, subs[..|subs| - 1]);
      if Get(t, subs[|subs| - 1]) > Get(t, earlier) then subs[|subs| - 1] else earlier
  }

  /** Nobody has more demand, and nobody before it has as much. */
  lemma BestIsFirstMaximum(t: Table, subs: seq<SubId>)
    requires AnyPositive(t, subs)
    ensures forall s :: s in subs ==> Get(t, s) <= t[Best(t, subs)]
    ensures exists i :: 0 <= i < |subs| && subs[i] == Best(t, subs) &&
              forall j :: 0 <= j < i ==> Get(t, subs[j]) < t[Best(t, subs)]
  {
    var i := BestAt(t, subs);
  }

  lemma {:induction false} BestAt(t: Table, subs: seq<SubId>) returns (i: nat)
    requires AnyPositive(t, subs)
    ensures i < |subs| && subs[i] == Best(t, subs)
    ensures forall j :: 0 <= j < i ==> Get(t, subs[j]) < t[Best(t, subs)]
    ensures forall j :: 0 <= j < |subs| ==> Get(t, subs[j]) <= t[Best(t, subs)]
  {
    var front, last := subs[..|subs| - 1], |subs| - 1;
    if |subs| == 1 || !AnyPositive(t, front) {
      i := last;
      assert forall j :: 0 <= j < last ==> subs[j] == front[j];
    } else {
      var k := BestAt(t, front);
      i := if Get(t, subs[last]) > Get(t, Best(t, front)) then last else k;
      assert forall j :: 0 <= j < last ==> subs[j] == front[j];
    }
  }

  function ServeByDemand(t: Table, subs: seq<SubId>, events: seq<Event>): Served
    decreases |events|
  {
    if events == [] || !AnyPositive(t, subs) then Served([], events, t)
    else
      var best := Best(t, subs);
      var n := Min(|events|, t[best]);
      var rest := ServeByDemand(t[best := t[best] - n], subs, events[n..]);
      Served([Slice(best, events[..n])] + rest.slices, rest.leftover, rest.demand)
  }

  /** The first slice of a non-trivial dispatch, and the dispatch of what remains. */
  lemma ServeByDemandStep(t: Table, subs: seq<SubId>, events: seq<Event>)
    requires events != [] && AnyPositive(t, subs)
    ensures var best := Best(t, subs); var n := Min(|events|, t[best]);
            var rest := ServeByDemand(t[best := t[best] - n], subs, events[n..]);
            var r := ServeByDemand(t, subs, events);
            && 1 <= n <= |events|
            && r.slices[0] == Slice(best, events[..n]) && r.slices[1..] == rest.slices
            && |r.slices| == 1 + |rest.slices|
            && r.leftover == rest.leftover && r.demand == rest.demand
            && r.slices == [Slice(best, events[..n])] + rest.slices
  {
  }

  /** Whoever is served has demand, and is served no more than it asked for. */
  lemma {:induction false} ServedHaveDemand(t: Table, subs: seq<SubId>, events: seq<Event>)
    ensures forall i :: 0 <= i < |ServeByDemand(t, subs, events).slices| ==>
              var slice := ServeByDemand(t, subs, events).slices[i];
              slice.sub in subs && slice.sub in t && 1 <= |slice.batch| <= t[slice.sub]
    decreases |events|
  {
    if events != [] && AnyPositive(t, subs) {
      ServeByDemandStep(t, subs, events);
      var best := Best(t, subs);
      var n := Min(|events|, t[best]);
      ServedHaveDemand(t[best := t[best] - n], subs, events[n..]);
      var r := ServeByDemand(t, subs, events);
      forall i | 0 <= i < |r.slices|
        ensures r.slices[i].sub in subs && r.slices[i].sub in t && 1 <= |r.slices[i].batch| <= t[r.slices[i].sub]
      {
        if i > 0 {
          assert r.slices[i] == r.slices[1..][i - 1];
        }
      }
    }
  }

  lemma FlattenStep(slice: Slice, rest: seq<Slice>)
    ensures Flatten([slice] + rest) == slice.batch + Flatten(rest)
  {
    assert ([slice] + rest)[1..] == rest;
  }

  /** The dispatch cuts its input exactly: the slices in serving order, followed by
      the leftover, are the input. */
  lemma {:induction false} DemandDispatchCutsInput(t: Table, subs: seq<SubId>, events: seq<Event>)
    ensures var r := ServeByDemand(t, subs, events);
            Flatten(r.slices) + r.leftover == events
    decreases |events|
  {
    if events != [] && AnyPositive(t, subs) {
      ServeByDemandStep(t, subs, events);
      var best := Best(t, subs);
      var n := Min(|events|, t[best]);
      var rest := ServeByDemand(t[best := t[best] - n], subs, events[n..]);
      DemandDispatchCutsInput(t[best := t[best] - n], subs, events[n..]);
      RejoinSlice(Slice(best, events[..n]), rest.slices, rest.leftover, events, n);
    }
  }

  lemma RejoinSlice(slice: Slice, rest: seq<Slice>, leftover: seq<Event>, events: seq<Event>, n: nat)
    requires n <= |events| && slice.batch == events[..n] && Flatten(rest) + leftover == events[n..]
    ensures Flatten([slice] + rest) + leftover == events
  {
    FlattenStep(slice, rest);
    assert slice.batch + (Flatten(rest) + leftover) == events;
  }

  /** As much is routed as there are events and demand for them. */
  lemma {:induction false} DemandDispatchAmount(t: Table, subs: seq<SubId>, events: seq<Event>)
    requires Distinct(subs)
    ensures |Flatten(ServeByDemand(t, subs, events).slices)| == Min(|events|, Servable(t, subs))
    decreases |events|
  {
    if events == [] || !AnyPositive(t, subs) {
      ServableBounds(t, subs);
    } else {
      ServeByDemandStep(t, subs, events);
      var best := Best(t, subs);
      var n := Min(|events|, t[best]);
      var t' := t[best := t[best] - n];
      DemandDispatchAmount(t', subs, events[n..]);
      FlattenStep(Slice(best, events[..n]), ServeByDemand(t', subs, events[n..]).slices);
      ServableUpdate(t, subs, best, t[best] - n);
    }
  }

  lemma BestServedFirst(t: Table, subs: seq<SubId>, s: SubId)
    requires AnyPositive(t, subs) && s in subs && s != Best(t, subs)
    ensures ServedBefore(t, subs, Best(t, subs), s)
  {
    var best := Best(t, subs);
    BestIsFirstMaximum(t, subs);
    var k :| 0 <= k < |subs| && subs[k] == best && forall m :: 0 <= m < k ==> Get(t, subs[m]) < t[best];
    var l :| 0 <= l < |subs| && subs[l] == s;
    assert l < k ==> Get(t, s) < t[best];
  }

  /** Serving others first is the same whether or not the served entry changed. */
  lemma ServedBeforeFrame(t: Table, subs: seq<SubId>, s: SubId, v: int, a: SubId, b: SubId)
    requires ServedBefore(t[s := v], subs, a, b) && a != s && b != s
    ensures ServedBefore(t, subs, a, b)
  {
  }

  ghost predicate InServingOrder(t: Table, subs: seq<SubId>, slices: seq<Slice>) {
    forall i, j :: 0 <= i < j < |slices| ==>
      slices[i].sub != slices[j].sub && ServedBefore(t, subs, slices[i].sub, slices[j].sub)
  }

  lemma BestInFront(t: Table, subs: seq<SubId>, v: int, slice: Slice, rest: seq<Slice>)
    requires AnyPositive(t, subs) && slice.sub == Best(t, subs) && InServingOrder(t[slice.sub := v], subs, rest)
    requires forall i :: 0 <= i < |rest| ==> rest[i].sub in subs && rest[i].sub != slice.sub
    ensures InServingOrder(t, subs, [slice] + rest)
  {
    var slices := [slice] + rest;
    forall i, j | 0 <= i < j < |slices|
      ensures slices[i].sub != slices[j].sub && ServedBefore(t, subs, slices[i].sub, slices[j].sub)
    {
      assert slices[j] == rest[j - 1];
      if i == 0 {
        BestServedFirst(t, subs, rest[j - 1].sub);
      } else {
        assert slices[i] == rest[i - 1];
        ServedBeforeFrame(t, subs, slice.sub, v, rest[i - 1].sub, rest[j - 1].sub);
      }
    }
  }

  lemma {:induction false} ServingOrder(t: Table, subs: seq<SubId>, events: seq<Event>)
    requires Distinct(subs)
    ensures InServingOrder(t, subs, ServeByDemand(t, subs, events).slices)
    decreases |events|
  {
    if events != [] && AnyPositive(t, subs) {
      ServeByDemandStep(t, subs, events);
      var best := Best(t, subs);
      var n := Min(|events|, t[best]);
      var t' := t[best := t[best] - n];
      ServingOrder(t', subs, events[n..]);
      ServedHaveDemand(t', subs, events[n..]);
      var rest := ServeByDemand(t', subs, events[n..]).slices;
      forall i | 0 <= i < |rest| ensures rest[i].sub in subs && rest[i].sub != best {
        assert 1 <= t'[rest[i].sub];
      }
      BestInFront(t, subs, t[best] - n, Slice(best, events[..n]), rest);
    }
  }

  /** A subscriber is chosen at most once, and slices are cut by non-increasing
      demand, the earlier subscriber first on a tie; no slice is empty. */
  lemma DemandDispatchOrder(t: Table, subs: seq<SubId>, events: seq<Event>)
    requires Distinct(subs)
    ensures var slices := ServeByDemand(t, subs, events).slices;
            && InServingOrder(t, subs, slices)
            && (forall i :: 0 <= i < |slices| ==> slices[i].batch != [])
  {
    ServingOrder(t, subs, events);
    ServedHaveDemand(t, subs, events);
  }

  /** The order `max` serves in: more demand first, ties by position. */
  ghost predicate ServedBefore(t: Table, subs: seq<SubId>, a: SubId, b: SubId) {
    Get(t, a) > Get(t, b) ||
    (Get(t, a) == Get(t, b) && exists i, j :: 0 <= i < j < |subs| && subs[i] == a && subs[j] == b)
  }

  /** A dispatch only moves credit: each subscription's demand drops by exactly the
      events routed to it and never below zero, and only subscribers receive. */
  ghost predicate Charged(before: Table, subs: seq<SubId>, slices: seq<Slice>, after: Table) {
    && after.Keys == before.Keys
    && (forall s :: Get(after, s) == Get(before, s) - |BatchFor(slices, s)|)
    && (forall s :: 0 <= Get(before, s) ==> 0 <= Get(after, s))
    && (forall s :: s !in subs ==> BatchFor(slices, s) == [])
  }

  lemma {:induction false} DemandIsCharged(t: Table, subs: seq<SubId>, events: seq<Event>)
    ensures var r := ServeByDemand(t, subs, events); Charged(t, subs, r.slices, r.demand)
    decreases |events|
  {
    if events != [] && AnyPositive(t, subs) {
      ServeByDemandStep(t, subs, events);
      var best := Best(t, subs);
      var n := Min(|events|, t[best]);
      var t' := t[best := t[best] - n];
      DemandIsCharged(t', subs, events[n..]);
      var rest := ServeByDemand(t', subs, events[n..]);
      assert t' == t[best := t[best] - |events[..n]|];
      ChargeOne(t, subs, Slice(best, events[..n]), rest.slices, rest.demand);
    }
  }

  lemma {:induction false} LeftoverMeansNoDemand(t: Table, subs: seq<SubId>, events: seq<Event>)
    ensures var r := ServeByDemand(t, subs, events); r.leftover != [] ==> !AnyPositive(r.demand, subs)
    decreases |events|
  {
    if events != [] && AnyPositive(t, subs) {
      ServeByDemandStep(t, subs, events);
      var best := Best(t, subs);
      var n := Min(|events|, t[best]);
      LeftoverMeansNoDemand(t[best := t[best] - n], subs, events[n..]);
    }
  }

  /** Each demand drops by exactly the batch it paid for, and events are left
      over only when no subscriber has demand left. */
  lemma DemandDispatchAccounts(t: Table, subs: seq<SubId>, events: seq<Event>)
    ensures var r := ServeByDemand(t, subs, events);
            && Charged(t, subs, r.slices, r.demand)
            && (r.leftover != [] ==> forall s :: s in subs ==> Get(r.demand, s) <= 0)
  {
    DemandIsCharged(t, subs, events);
    LeftoverMeansNoDemand(t, subs, events);
    var demand := ServeByDemand(t, subs, events).demand;
    forall s | s in subs && !AnyPositive(demand, subs) ensures Get(demand, s) <= 0 {
    }
  }

  /** Charging one more slice to its subscriber. */
  lemma ChargeOne(t: Table, subs: seq<SubId>, slice: Slice, rest: seq<Slice>, after: Table)
    requires slice.sub in t && slice.sub in subs && |slice.batch| <= t[slice.sub]
    requires Charged(t[slice.sub := t[slice.sub] - |slice.batch|], subs, rest, after)
    ensures Charged(t, subs, [slice] + rest, after)
  {
    var t' := t[slice.sub := t[slice.sub] - |slice.batch|];
    assert ([slice] + rest)[1..] == rest;
    forall s
      ensures Get(after, s) == Get(t, s) - |BatchFor([slice] + rest, s)|
      ensures 0 <= Get(t, s) ==> 0 <= Get(after, s)
    {
      assert Get(after, s) == Get(t', s) - |BatchFor(rest, s)|;
    }
  }

  lemma {:induction false} OnlySlice(slices: seq<Slice>, i: nat)
    requires i < |slices| && forall j, k :: 0 <= j < k < |slices| ==> slices[j].sub != slices[k].sub
    ensures BatchFor(slices, slices[i].sub) == slices[i].batch
  {
    if i == 0 {
      BatchForAbsent(slices[1..], slices[0].sub);
      Units(slices[0].batch);
    } else {
      assert slices[1..][i - 1] == slices[i];
      OnlySlice(slices[1..], i - 1);
    }
  }

  lemma FlattenAround(slices: seq<Slice>, i: nat)
    requires i < |slices|
    ensures Flatten(slices) == Flatten(slices[..i]) + slices[i].batch + Flatten(slices[i + 1..])
  {
    assert slices == slices[..i] + slices[i..];
    FlattenConcat(slices[..i], slices[i..]);
    assert slices[i..][1..] == slices[i + 1..];
    Assoc(Flatten(slices[..i]), slices[i].batch, Flatten(slices[i + 1..]));
  }

  /** No subscriber's batch mixes slices: each batch is one contiguous slice of the
      input, and what precedes it went to those served earlier. */
  lemma DemandBatchIsOneSlice(t: Table, subs: seq<SubId>, events: seq<Event>, i: nat)
    requires Distinct(subs) && i < |ServeByDemand(t, subs, events).slices|
    ensures var r := ServeByDemand(t, subs, events);
            && BatchFor(r.slices, r.slices[i].sub) == r.slices[i].batch
            && events == Flatten(r.slices[..i]) + r.slices[i].batch + Flatten(r.slices[i + 1..]) + r.leftover
  {
    var r := ServeByDemand(t, subs, events);
    ServingOrder(t, subs, events);
    OnlySlice(r.slices, i);
    DemandDispatchCutsInput(t, subs, events);
    FlattenAround(r.slices, i);
  }

  // ---------------------------------------------------------------------
  // BroadcastDispatcher
  // ---------------------------------------------------------------------

  /** Python's `xs[:n]`, where a negative `n` counts from the end. */
  function PyTake(xs: seq<Event>, n: int): seq<Event> {
    if n >= 0 then xs[..Min(n, |xs|)] else xs[..Max(0, |xs| + n)]
  }

  /** Python's `xs[n:]`. */
  function PyDrop(xs: seq<Event>, n: int): seq<Event> {
    if n >= 0 then xs[Min(n, |xs|)..] else xs[Max(0, |xs| + n)..]
  }

  /** `min(demand.get(sid, 0) for sid in subs)` */
  function LeastOf(t: Table, subs: seq<SubId>): (m: int)
    requires subs != []
  {
    if |subs| == 1 then Get(t, subs[0]) else Min(Get(t, subs[0]), LeastOf(t, subs[1..]))
  }

  lemma {:induction false} LeastOfBounds(t: Table, subs: seq<SubId>)
    requires subs != []
    ensures forall s :: s in subs ==> LeastOf(t, subs) <= Get(t, s)
    ensures exists s :: s in subs && LeastOf(t, subs) == Get(t, s)
  {
    if |subs| > 1 {
      LeastOfBounds(t, subs[1..]);
      assert forall s :: s in subs ==> s == subs[0] || s in subs[1..];
      assert subs[0] in subs;
      var s :| s in subs[1..] && LeastOf(t, subs[1..]) == Get(t, s);
      assert s in subs;
    } else {
      assert subs[0] in subs;
    }
  }

  /** The same batch for every subscriber. */
  function Copies(subs: seq<SubId>, batch: seq<Event>): seq<Slice> {
    seq(|subs|, i requires 0 <= i < |subs| => Slice(subs[i], batch))
  }

  function ServeByBroadcast(t: Table, subs: seq<SubId>, events: seq<Event>): Served {
    if subs == [] then Served([], events, t)
    else
      var batch := PyTake(events, LeastOf(t, subs));
      Served(Copies(subs, batch), PyDrop(events, LeastOf(t, subs)),
             t + map s | s in subs :: Max(0, Get(t, s) - |batch|))
  }

  lemma {:induction false} CopiesGiveBatch(subs: seq<SubId>, batch: seq<Event>, s: SubId)
    requires Distinct(subs)
    ensures BatchFor(Copies(subs, batch), s) == if s in subs then batch else []
  {
    if subs != [] {
      CopiesGiveBatch(subs[1..], batch, s);
      assert Copies(subs, batch)[1..] == Copies(subs[1..], batch);
    }
  }

  lemma LeastOfIsLeast(t: Table, subs: seq<SubId>)
    requires subs != [] && Elements(subs) == t.Keys
    ensures LeastOf(t, subs) == Least(t)
  {
    LeastIsMinimum(t);
    LeastOfBounds(t, subs);
    assert subs[0] in Elements(subs);
    var s :| s in t && t[s] == Least(t);
    assert s in Elements(subs);
    var u :| u in subs && LeastOf(t, subs) == Get(t, u);
    assert u in Elements(subs);
  }

  /** Taking the same amount from every entry takes it from the minimum. */
  lemma LeastShift(t: Table, u: Table, n: int)
    requires t != map[] && u.Keys == t.Keys && forall s :: s in t ==> u[s] == t[s] - n
    ensures Least(u) == Least(t) - n
  {
    LeastIsMinimum(t);
    LeastIsMinimum(u);
    var low :| low in t && t[low] == Least(t);
    assert low in u.Keys;
    var low' :| low' in u && u[low'] == Least(u);
    assert low' in t.Keys;
  }

  lemma BroadcastBatches(t: Table, subs: seq<SubId>, events: seq<Event>)
    requires subs != [] && NonNegative(t) && LeastOf(t, subs) == Least(t) && 0 <= Least(t)
    requires Distinct(subs)
    ensures var r := ServeByBroadcast(t, subs, events);
            var batch := PyTake(events, LeastOf(t, subs));
            && batch + r.leftover == events
            && |batch| == Min(|events|, Least(t))
            && (forall s :: BatchFor(r.slices, s) == if s in subs then batch else [])
  {
    var r := ServeByBroadcast(t, subs, events);
    var batch := PyTake(events, LeastOf(t, subs));
    assert batch + r.leftover == events;
    forall s ensures BatchFor(r.slices, s) == if s in subs then batch else [] {
      CopiesGiveBatch(subs, batch, s);
    }
  }

  /** With non-negative demands the clamp never bites: every subscriber gets the same
      prefix of the input and pays exactly its length, the leftover is the rest, and
      the least demand drops by exactly the batch length. */
  lemma BroadcastDispatchAgrees(t: Table, subs: seq<SubId>, events: seq<Event>)
    requires Distinct(subs) && subs != [] && Elements(subs) == t.Keys && NonNegative(t)
    ensures var r := ServeByBroadcast(t, subs, events);
            var batch := PyTake(events, LeastOf(t, subs));
            && batch + r.leftover == events
            && |batch| == Min(|events|, Least(t))
            && (forall s :: s in subs ==> BatchFor(r.slices, s) == batch)
            && (forall s :: s !in subs ==> BatchFor(r.slices, s) == [])
            && r.demand.Keys == t.Keys
            && (forall s :: s in t ==> r.demand[s] == t[s] - |batch| && 0 <= r.demand[s])
            && Least(r.demand) == Least(t) - |batch|
            && (r.leftover != [] ==> Least(r.demand) == 0)
  {
    LeastOfIsLeast(t, subs);
    LeastIsMinimum(t);
    BroadcastBatches(t, subs, events);
    var n := |PyTake(events, LeastOf(t, subs))|;
    BroadcastTable(t, subs, n);
    LeastShift(t, ServeByBroadcast(t, subs, events).demand, n);
  }

  /** Everybody pays `n`, and nobody has to be clamped. */
  lemma BroadcastTable(t: Table, subs: seq<SubId>, n: nat)
    requires Elements(subs) == t.Keys && forall s :: s in t ==> n <= t[s]
    ensures var u := t + map s | s in subs :: Max(0, Get(t, s) - n);
            u.Keys == t.Keys && forall s :: s in t ==> u[s] == t[s] - n
  {
    assert forall s :: s in subs <==> s in Elements(subs);
  }

  // ---------------------------------------------------------------------
  // PartitionDispatcher
  // ---------------------------------------------------------------------

  /** The subscriber an event of partition `p` goes to right now, if any has demand. */
  predicate Takes(t: Table, pmap: map<int, SubId>, subs: seq<SubId>, p: int) {
    p in pmap && pmap[p] in subs && Get(t, pmap[p]) > 0
  }

  function ServeByPartition(t: Table, pmap: map<int, SubId>, hash: Event -> int,
                            subs: seq<SubId>, events: seq<Event>): Served
  {
    if events == [] then Served([], [], t)
    else
      var p := hash(events[0]);
      if Takes(t, pmap, subs, p) then
        var rest := ServeByPartition(t[pmap[p] := Get(t, pmap[p]) - 1], pmap, hash, subs, events[1..]);
        Served([Slice(pmap[p], [events[0]])] + rest.slices, rest.leftover, rest.demand)
      else
        var rest := ServeByPartition(t, pmap, hash, subs, events[1..]);
        Served(rest.slices, [events[0]] + rest.leftover, rest.demand)
  }

  /** The events of one partition, in order. */
  function OfPartition(hash: Event -> int, p: int, events: seq<Event>): seq<Event> {
    if events == [] then []
    else if hash(events[0]) == p then [events[0]] + OfPartition(hash, p, events[1..])
    else OfPartition(hash, p, events[1..])
  }

  lemma {:induction false} OfPartitionConcat(hash: Event -> int, p: int, a: seq<Event>, b: seq<Event>)
    ensures OfPartition(hash, p, a + b) == OfPartition(hash, p, a) + OfPartition(hash, p, b)
  {
    if a == [] {
      Units(b);
      Units(OfPartition(hash, p, b));
    } else {
      OfPartitionConcat(hash, p, a[1..], b);
      ConcatHead(a, b);
      Assoc([a[0]], OfPartition(hash, p, a[1..]), OfPartition(hash, p, b));
    }
  }

  lemma {:induction false} PartitionDispatchAccounts(t: Table, pmap: map<int, SubId>, hash: Event -> int,
                                                     subs: seq<SubId>, events: seq<Event>)
    ensures var r := ServeByPartition(t, pmap, hash, subs, events); Charged(t, subs, r.slices, r.demand)
  {
    if events != [] {
      var p := hash(events[0]);
      if Takes(t, pmap, subs, p) {
        var t' := t[pmap[p] := Get(t, pmap[p]) - 1];
        PartitionDispatchAccounts(t', pmap, hash, subs, events[1..]);
        var rest := ServeByPartition(t', pmap, hash, subs, events[1..]);
        ChargeOne(t, subs, Slice(pmap[p], [events[0]]), rest.slices, rest.demand);
      } else {
        PartitionDispatchAccounts(t, pmap, hash, subs, events[1..]);
      }
    }
  }

  lemma OfPartitionStep(hash: Event -> int, p: int, e: Event, rest: seq<Event>)
    ensures OfPartition(hash, p, [e] + rest)
         == if hash(e) == p then [e] + OfPartition(hash, p, rest) else OfPartition(hash, p, rest)
  {
    assert ([e] + rest)[1..] == rest;
  }

  /** A partition nobody can take events for stays so, and none of its events is routed. */
  lemma {:induction false} PartitionClosed(t: Table, pmap: map<int, SubId>, hash: Event -> int,
                                           subs: seq<SubId>, events: seq<Event>, p: int)
    requires !Takes(t, pmap, subs, p)
    ensures var r := ServeByPartition(t, pmap, hash, subs, events);
            !Takes(r.demand, pmap, subs, p) && OfPartition(hash, p, Flatten(r.slices)) == []
  {
    if events != [] {
      var q := hash(events[0]);
      if Takes(t, pmap, subs, q) {
        var t' := t[pmap[q] := Get(t, pmap[q]) - 1];
        PartitionClosed(t', pmap, hash, subs, events[1..], p);
        var rest := ServeByPartition(t', pmap, hash, subs, events[1..]);
        FlattenStep(Slice(pmap[q], [events[0]]), rest.slices);
        OfPartitionStep(hash, p, events[0], Flatten(rest.slices));
      } else {
        PartitionClosed(t, pmap, hash, subs, events[1..], p);
      }
    }
  }

  /** Within one partition the dispatch routes a prefix and leaves the rest, in order;
      an event is left only when nobody can take events of its partition any more. */
  lemma {:induction false} PartitionDispatchCutsPartition(t: Table, pmap: map<int, SubId>, hash: Event -> int,
                                                          subs: seq<SubId>, events: seq<Event>, p: int)
    ensures var r := ServeByPartition(t, pmap, hash, subs, events);
            && OfPartition(hash, p, Flatten(r.slices)) + OfPartition(hash, p, r.leftover)
               == OfPartition(hash, p, events)
            && (OfPartition(hash, p, r.leftover) != [] ==> !Takes(r.demand, pmap, subs, p))
  {
    if events != [] {
      var q := hash(events[0]);
      if Takes(t, pmap, subs, q) {
        var t' := t[pmap[q] := Get(t, pmap[q]) - 1];
        var rest := ServeByPartition(t', pmap, hash, subs, events[1..]);
        PartitionDispatchCutsPartition(t', pmap, hash, subs, events[1..], p);
        FlattenStep(Slice(pmap[q], [events[0]]), rest.slices);
        OfPartitionStep(hash, p, events[0], Flatten(rest.slices));
      } else {
        var rest := ServeByPartition(t, pmap, hash, subs, events[1..]);
        PartitionDispatchCutsPartition(t, pmap, hash, subs, events[1..], p);
        OfPartitionStep(hash, p, events[0], rest.leftover);
        if q == p {
          PartitionClosed(t, pmap, hash, subs, events[1..], p);
        }
      }
    }
  }

  /** Every routed event goes to the subscriber registered for its partition. */
  lemma {:induction false} PartitionDispatchRoutesHome(t: Table, pmap: map<int, SubId>, hash: Event -> int,
                                                       subs: seq<SubId>, events: seq<Event>, s: SubId, e: Event)
    requires e in BatchFor(ServeByPartition(t, pmap, hash, subs, events).slices, s)
    ensures hash(e) in pmap && pmap[hash(e)] == s && s in subs
  {
    var p := hash(events[0]);
    if Takes(t, pmap, subs, p) {
      var t' := t[pmap[p] := Get(t, pmap[p]) - 1];
      var rest := ServeByPartition(t', pmap, hash, subs, events[1..]);
      var r := ServeByPartition(t, pmap, hash, subs, events);
      assert r.slices[1..] == rest.slices;
      if e in BatchFor(rest.slices, s) {
        PartitionDispatchRoutesHome(t', pmap, hash, subs, events[1..], s, e);
      }
    } else {
      PartitionDispatchRoutesHome(t, pmap, hash, subs, events[1..], s, e);
    }
  }
}
