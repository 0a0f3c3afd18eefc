/** Subscription ids, events, and the per-subscription demand table every
    dispatcher keeps (a dict from subscription id to outstanding demand). */
module Tables {
  import opened Seqs

  type SubId(==, !new)
  type Event(==, !new)
  type Table = map<SubId, int>

  /** `table.get(sid, 0)` */
  function Get(t: Table, s: SubId): int {
    if s in t then t[s] else 0
  }

  /** `sum(table.values())` */
  ghost function Total(t: Table): int {
    if t == map[] then 0
    else var s :| s in t; t[s] + Total(t - {s})
  }

  /** `min(table.values(), default=0)` */
  ghost function Least(t: Table): int {
    if t == map[] then 0
    else
      var s :| s in t;
      var rest := t - {s};
      if rest == map[] then t[s] else Min(t[s], Least(rest))
  }

  function Min(a: int, b: int): int {
    if a <= b then a else b
  }

  function Max(a: int, b: int): int {
    if a >= b then a else b
  }

  ghost predicate NonNegative(t: Table) {
    forall s :: s in t ==> 0 <= t[s]
  }

  /** The demand of `subs` that can be served: negative entries count for nothing. */
  function Servable(t: Table, subs: seq<SubId>): nat {
    if subs == [] then 0 else Max(0, Get(t, subs[0])) + Servable(t, subs[1..])
  }

  lemma {:induction false} TotalWithout(t: Table, s: SubId)
    requires s in t
    ensures Total(t) == t[s] + Total(t - {s})
    decreases |t|
  {
    var p :| p in t && Total(t) == t[p] + Total(t - {p});
    if p != s {
      TotalWithout(t - {p}, s);
      TotalWithout(t - {s}, p);
      assert t - {p} - {s} == t - {s} - {p};
    }
  }

  lemma TotalUpdate(t: Table, s: SubId, v: int)
    ensures Total(t[s := v]) == Total(t) - Get(t, s) + v
  {
    TotalWithout(t[s := v], s);
    assert t[s := v] - {s} == t - {s};
    if s in t {
      TotalWithout(t, s);
    } else {
      assert t - {s} == t;
    }
  }

  lemma {:induction false} TotalBounds(t: Table)
    requires NonNegative(t)
    ensures 0 <= Total(t)
    ensures forall s :: s in t ==> t[s] <= Total(t)
    decreases |t|
  {
    if t != map[] {
      var p :| p in t && Total(t) == t[p] + Total(t - {p});
      TotalBounds(t - {p});
      assert forall s :: s in t && s != p ==> s in t - {p};
    }
  }

  lemma {:induction false} LeastIsMinimum(t: Table)
    ensures t == map[] ==> Least(t) == 0
    ensures forall s :: s in t ==> Least(t) <= t[s]
    ensures t != map[] ==> exists s :: s in t && t[s] == Least(t)
    decreases |t|
  {
    if t != map[] {
      var p :| p in t && Least(t) == if t - {p} == map[] then t[p] else Min(t[p], Least(t - {p}));
      var rest := t - {p};
      assert rest == map[] ==> Least(t) == t[p];
      assert rest != map[] ==> Least(t) == Min(t[p], Least(rest));
      LeastIsMinimum(rest);
      forall s | s in t ensures Least(t) <= t[s] {
        if s != p {
          assert s in rest && rest[s] == t[s];
        }
      }
      if Least(t) != t[p] {
        var q :| q in rest && rest[q] == Least(rest);
        assert q in t && t[q] == Least(t);
      }
    }
  }

  lemma {:induction false} ServableSkips(t: Table, subs: seq<SubId>, s: SubId, v: int)
    requires s !in subs
    ensures Servable(t[s := v], subs) == Servable(t, subs)
  {
    if subs != [] {
      ServableSkips(t, subs[1..], s, v);
    }
  }

  lemma {:induction false} ServableUpdate(t: Table, subs: seq<SubId>, s: SubId, v: int)
    requires Distinct(subs) && s in subs
    ensures Servable(t[s := v], subs) == Servable(t, subs) - Max(0, Get(t, s)) + Max(0, v)
  {
    if subs[0] == s {
      ServableSkips(t, subs[1..], s, v);
    } else {
      ServableUpdate(t, subs[1..], s, v);
    }
  }

  lemma {:induction false} ServableBounds(t: Table, subs: seq<SubId>)
    ensures forall s :: s in subs ==> Get(t, s) <= Servable(t, subs)
    ensures (forall s :: s in subs ==> Get(t, s) <= 0) ==> Servable(t, subs) == 0
  {
    if subs != [] {
      ServableBounds(t, subs[1..]);
      forall s | s in subs ensures Get(t, s) <= Servable(t, subs) {
        if s != subs[0] {
          assert s in subs[1..];
        }
      }
      assert forall s :: s in subs[1..] ==> s in subs;
    }
  }

  /** When the table is keyed by exactly `subs`, what can be served is the sum of the table. */
  lemma {:induction false} ServableIsTotal(t: Table, subs: seq<SubId>)
    requires Distinct(subs) && Elements(subs) == t.Keys && NonNegative(t)
    ensures Servable(t, subs) == Total(t)
  {
    if subs == [] {
      assert t == map[];
    } else {
      var s := subs[0];
      assert s in Elements(subs);
      TotalWithout(t, s);
      ServableSkipsRemoved(t, subs[1..], s);
      assert forall x :: x in subs[1..] <==> x in Elements(subs) && x != s;
      assert Elements(subs[1..]) == (t - {s}).Keys;
      ServableIsTotal(t - {s}, subs[1..]);
    }
  }

  lemma {:induction false} ServableSkipsRemoved(t: Table, subs: seq<SubId>, s: SubId)
    requires s !in subs
    ensures Servable(t - {s}, subs) == Servable(t, subs)
  {
    if subs != [] {
      ServableSkipsRemoved(t, subs[1..], s);
    }
  }
}
