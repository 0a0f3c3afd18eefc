/** Keyed registries: forward tables per registry and one reverse table per process, which
    together stand for one relation between registry, key and process. */
module Registries {
  import opened Identifiers

  type RegName(==, !new)
  type Key(==, !new)

  datatype Mode = UniqueMode | DuplicateMode

  /** `_RegistryEntry` */
  datatype Entry = Entry(mode: Mode, unique: map<Key, Pid>, duplicate: map<Key, set<Pid>>)

  /** The runtime's `processes`, `registries` and `_proc_keys`. */
  datatype Tables = Tables(
    processes: set<Pid>,
    registries: map<RegName, Entry>,
    procKeys: map<Pid, set<(RegName, Key)>>)

  datatype Outcome = Registered | UnknownRegistry | AlreadyRegistered(owner: Pid)

  predicate Entered(e: Entry, k: Key, p: Pid) {
    if e.mode.UniqueMode? then k in e.unique && e.unique[k] == p else k in e.duplicate && p in e.duplicate[k]
  }

  /** `p` is registered under `k` in registry `n`. */
  predicate Has(t: Tables, n: RegName, k: Key, p: Pid) {
    n in t.registries && Entered(t.registries[n], k, p)
  }

  function Noted(procKeys: map<Pid, set<(RegName, Key)>>, p: Pid, n: RegName, k: Key): map<Pid, set<(RegName, Key)>> {
    procKeys[p := (if p in procKeys then procKeys[p] else {}) + {(n, k)}]
  }

  /** `Registry.register` */
  function Register(t: Tables, n: RegName, k: Key, p: Pid): (Tables, Outcome) {
    if n !in t.registries then (t, UnknownRegistry)
    else
      var e := t.registries[n];
      if e.mode.UniqueMode? && k in e.unique && e.unique[k] in t.processes then (t, AlreadyRegistered(e.unique[k]))
      else
        var e' := if e.mode.UniqueMode? then e.(unique := e.unique[k := p])
                  else e.(duplicate := e.duplicate[k := (if k in e.duplicate then e.duplicate[k] else {}) + {p}]);
        (t.(registries := t.registries[n := e'], procKeys := Noted(t.procKeys, p, n, k)), Registered)
  }

  /** An entry without `p` under the keys `ks`; a key left with nobody goes. */
  function Scrub(e: Entry, p: Pid, ks: set<Key>): Entry {
    if e.mode.UniqueMode? then
      e.(unique := map k | k in e.unique && !(k in ks && e.unique[k] == p) :: e.unique[k])
    else
      e.(duplicate := map k | k in e.duplicate && !(k in ks && e.duplicate[k] - {p} == {})
           :: if k in ks then e.duplicate[k] - {p} else e.duplicate[k])
  }

  function Unnoted(procKeys: map<Pid, set<(RegName, Key)>>, p: Pid, n: RegName, k: Key): map<Pid, set<(RegName, Key)>> {
    if p !in procKeys then procKeys
    else if procKeys[p] - {(n, k)} == {} then procKeys - {p}
    else procKeys[p := procKeys[p] - {(n, k)}]
  }

  /** `Registry.unregister` */
  function Unregister(t: Tables, n: RegName, k: Key, p: Pid): Tables {
    if n !in t.registries then t
    else t.(registries := t.registries[n := Scrub(t.registries[n], p, {k})], procKeys := Unnoted(t.procKeys, p, n, k))
  }

  /** The keys of registry `n` in a reverse entry. */
  function KeysIn(pairs: set<(RegName, Key)>, n: RegName): set<Key> {
    set pair | pair in pairs && pair.0 == n :: pair.1
  }

  function PairsOf(t: Tables, p: Pid): set<(RegName, Key)> {
    if p in t.procKeys then t.procKeys[p] else {}
  }

  /** The registries without `p`, where the reverse entry `pairs` says it is. */
  function Scrubbed(registries: map<RegName, Entry>, p: Pid, pairs: set<(RegName, Key)>): map<RegName, Entry> {
    map n | n in registries :: Scrub(registries[n], p, KeysIn(pairs, n))
  }

  /** `Runtime.unregister`, its registry part. */
  function Remove(t: Tables, p: Pid): Tables {
    Tables(t.processes - {p}, Scrubbed(t.registries, p, PairsOf(t, p)), t.procKeys - {p})
  }

  /** What outside code does: processes and registries come and go; keys are registered. */
  datatype Op =
    | Spawn(p: Pid)
    | Die(p: Pid)
    | Create(n: RegName, mode: Mode)
    | Destroy(n: RegName)
    | Enter(n: RegName, k: Key, p: Pid)
    | Leave(n: RegName, k: Key, p: Pid)

  function Next(t: Tables, op: Op): Tables {
    match op
    case Spawn(p) => t.(processes := t.processes + {p})
    case Die(p) => Remove(t, p)
    case Create(n, mode) =>
      if n in t.registries then t else t.(registries := t.registries[n := Entry(mode, map[], map[])])
    case Destroy(n) => t.(registries := t.registries - {n})
    case Enter(n, k, p) => Register(t, n, k, p).0
    case Leave(n, k, p) => Unregister(t, n, k, p)
  }

  function Run(t: Tables, ops: seq<Op>): Tables
    decreases |ops|
  {
    if ops == [] then t else Run(Next(t, ops[0]), ops[1..])
  }

  const EMPTY: Tables := Tables({}, map[], map[])

  /** `Registry.lookup`: the living processes under a key. */
  function Lookup(t: Tables, n: RegName, k: Key): set<Pid> {
    if n !in t.registries then {}
    else
      var e := t.registries[n];
      if e.mode.UniqueMode? then (if k in e.unique && e.unique[k] in t.processes then {e.unique[k]} else {})
      else set p | p in (if k in e.duplicate then e.duplicate[k] else {}) && p in t.processes
  }

  /** `Registry.keys`: the keys of `p` in a known registry, by its reverse entry. */
  function Keys(t: Tables, n: RegName, p: Pid): set<Key> {
    if n in t.registries then KeysIn(PairsOf(t, p), n) else {}
  }

  // ---------------------------------------------------------------------
  // The relation
  // ---------------------------------------------------------------------

  /** What the tables are for: who lives, the mode of each registry, and one relation. */
  datatype Relation = Relation(living: set<Pid>, modes: map<RegName, Mode>, entries: set<(RegName, Key, Pid)>)

  const NOTHING: Relation := Relation({}, map[], {})

  function Owners(r: Relation, n: RegName, k: Key): set<Pid> {
    set e | e in r.entries && e.0 == n && e.1 == k :: e.2
  }

  /** The reference meaning of each operation. */
  function NextRelation(r: Relation, op: Op): Relation {
    match op
    case Spawn(p) => r.(living := r.living + {p})
    case Die(p) => r.(living := r.living - {p}, entries := set e | e in r.entries && e.2 != p)
    case Create(n, mode) => if n in r.modes then r else r.(modes := r.modes[n := mode])
    case Destroy(n) => r.(modes := r.modes - {n}, entries := set e | e in r.entries && e.0 != n)
    case Enter(n, k, p) =>
      if n !in r.modes then r
      else if r.modes[n].DuplicateMode? then r.(entries := r.entries + {(n, k, p)})
      else if Owners(r, n, k) * r.living != {} then r
      else r.(entries := (set e | e in r.entries && !(e.0 == n && e.1 == k)) + {(n, k, p)})
    case Leave(n, k, p) => r.(entries := r.entries - {(n, k, p)})
  }

  function RunRelation(r: Relation, ops: seq<Op>): Relation
    decreases |ops|
  {
    if ops == [] then r else RunRelation(NextRelation(r, ops[0]), ops[1..])
  }

  ghost predicate Means(t: Tables, r: Relation) {
    && t.processes == r.living
    && t.registries.Keys == r.modes.Keys
    && (forall n :: n in t.registries ==> t.registries[n].mode == r.modes[n])
    && (forall n, k, p :: Has(t, n, k, p) <==> (n, k, p) in r.entries)
  }

  /** Every forward entry has its reverse entry. */
  ghost predicate Reversed(t: Tables) {
    forall n, k, p {:trigger Has(t, n, k, p)} :: Has(t, n, k, p) ==> (n, k) in PairsOf(t, p)
  }

  ghost predicate EntryClean(e: Entry) {
    && (if e.mode.UniqueMode? then e.duplicate == map[] else e.unique == map[])
    && forall k :: k in e.duplicate ==> e.duplicate[k] != {}
  }

  /** No empty set is kept, and an entry uses only the table of its mode. */
  ghost predicate Clean(t: Tables) {
    && (forall n {:trigger EntryClean(t.registries[n])} :: n in t.registries ==> EntryClean(t.registries[n]))
    && (forall p :: p in t.procKeys ==> t.procKeys[p] != {})
  }

  ghost predicate Inv(t: Tables, r: Relation) {
    Means(t, r) && Reversed(t) && Clean(t)
  }

  lemma ScrubEntered(e: Entry, p: Pid, ks: set<Key>, k: Key, q: Pid)
    ensures Entered(Scrub(e, p, ks), k, q) <==> Entered(e, k, q) && !(q == p && k in ks)
  {
    if k in e.duplicate && q in e.duplicate[k] && q != p {
      assert q in e.duplicate[k] - {p};
    }
  }

  lemma ScrubIsClean(e: Entry, p: Pid, ks: set<Key>)
    requires EntryClean(e)
    ensures EntryClean(Scrub(e, p, ks)) && Scrub(e, p, ks).mode == e.mode
  {
  }

  lemma RemoveClean(t: Tables, p: Pid)
    requires Clean(t)
    ensures Clean(Remove(t, p))
  {
    var t' := Remove(t, p);
    forall n | n in t'.registries ensures EntryClean(t'.registries[n]) {
      assert EntryClean(t.registries[n]);
      ScrubIsClean(t.registries[n], p, KeysIn(PairsOf(t, p), n));
    }
  }

  lemma UnregisterClean(t: Tables, n: RegName, k: Key, p: Pid)
    requires Clean(t)
    ensures Clean(Unregister(t, n, k, p))
  {
    var t' := Unregister(t, n, k, p);
    if n in t.registries {
      assert EntryClean(t.registries[n]);
      ScrubIsClean(t.registries[n], p, {k});
    }
    forall m | m in t'.registries ensures EntryClean(t'.registries[m]) {
      assert EntryClean(t.registries[m]);
    }
  }

  /** Every operation leaves no empty set behind and keeps to the table of the mode. */
  lemma NextClean(t: Tables, op: Op)
    requires Clean(t)
    ensures Clean(Next(t, op))
  {
    var t' := Next(t, op);
    match op
    case Die(p) => RemoveClean(t, p);
    case Leave(n, k, p) => UnregisterClean(t, n, k, p);
    case _ =>
      forall n | n in t'.registries ensures EntryClean(t'.registries[n]) {
        assert n in t.registries ==> EntryClean(t.registries[n]);
      }
  }

  lemma DieInv(t: Tables, r: Relation, p: Pid)
    requires Inv(t, r)
    ensures Inv(Remove(t, p), NextRelation(r, Die(p)))
  {
    var t' := Remove(t, p);
    var r' := NextRelation(r, Die(p));
    forall n, k, q ensures Has(t', n, k, q) <==> Has(t, n, k, q) && q != p {
      if n in t.registries {
        ScrubEntered(t.registries[n], p, KeysIn(PairsOf(t, p), n), k, q);
        if Has(t, n, k, p) {
          assert (n, k) in PairsOf(t, p);
          assert k in KeysIn(PairsOf(t, p), n);
        }
      }
    }
    NextClean(t, Die(p));
  }

  lemma LeaveInv(t: Tables, r: Relation, n: RegName, k: Key, p: Pid)
    requires Inv(t, r)
    ensures Inv(Unregister(t, n, k, p), NextRelation(r, Leave(n, k, p)))
  {
    var t' := Unregister(t, n, k, p);
    forall m, j, q ensures Has(t', m, j, q) <==> Has(t, m, j, q) && !(m == n && j == k && q == p) {
      if n in t.registries { ScrubEntered(t.registries[n], p, {k}, j, q); }
    }
    NextClean(t, Leave(n, k, p));
    forall m, j, q | Has(t', m, j, q) ensures (m, j) in PairsOf(t', q) {
      assert Has(t, m, j, q);
    }
  }

  /** The owner under a key of a unique registry, against the relation. */
  lemma OwnersAre(t: Tables, r: Relation, n: RegName, k: Key)
    requires Means(t, r) && n in t.registries && t.registries[n].mode.UniqueMode?
    ensures Owners(r, n, k) == if k in t.registries[n].unique then {t.registries[n].unique[k]} else {}
  {
    var unique := t.registries[n].unique;
    forall p ensures p in Owners(r, n, k) <==> k in unique && unique[k] == p {
      assert Has(t, n, k, p) <==> (n, k, p) in r.entries;
    }
  }

  lemma EnteredMeans(t: Tables, r: Relation, n: RegName, k: Key, p: Pid)
    requires Inv(t, r) && Register(t, n, k, p).1 == Registered
    ensures Means(Register(t, n, k, p).0, NextRelation(r, Enter(n, k, p)))
  {
    var t' := Register(t, n, k, p).0;
    var r' := NextRelation(r, Enter(n, k, p));
    if t.registries[n].mode.UniqueMode? { OwnersAre(t, r, n, k); }
    forall m, j, q ensures Has(t', m, j, q) <==> (m, j, q) in r'.entries {
      assert Has(t, m, j, q) <==> (m, j, q) in r.entries;
    }
  }

  lemma EnterInv(t: Tables, r: Relation, n: RegName, k: Key, p: Pid)
    requires Inv(t, r)
    ensures Inv(Register(t, n, k, p).0, NextRelation(r, Enter(n, k, p)))
  {
    match Register(t, n, k, p).1
    case UnknownRegistry =>
    case AlreadyRegistered(q) =>
      OwnersAre(t, r, n, k);
      assert q in Owners(r, n, k) * r.living;
    case Registered =>
      var t' := Register(t, n, k, p).0;
      EnteredMeans(t, r, n, k, p);
      forall m, j, q | Has(t', m, j, q) ensures (m, j) in PairsOf(t', q) {
        assert Has(t, m, j, q) || (m == n && j == k && q == p);
      }
      NextClean(t, Enter(n, k, p));
  }

  lemma CreateInv(t: Tables, r: Relation, n: RegName, mode: Mode)
    requires Inv(t, r)
    ensures Inv(Next(t, Create(n, mode)), NextRelation(r, Create(n, mode)))
  {
    var t' := Next(t, Create(n, mode));
    forall m, k, p ensures Has(t', m, k, p) <==> Has(t, m, k, p) {
    }
    NextClean(t, Create(n, mode));
  }

  lemma DestroyInv(t: Tables, r: Relation, n: RegName)
    requires Inv(t, r)
    ensures Inv(Next(t, Destroy(n)), NextRelation(r, Destroy(n)))
  {
    var t' := Next(t, Destroy(n));
    forall m, k, p ensures Has(t', m, k, p) <==> Has(t, m, k, p) && m != n {
    }
    NextClean(t, Destroy(n));
  }

  lemma NextInv(t: Tables, r: Relation, op: Op)
    requires Inv(t, r)
    ensures Inv(Next(t, op), NextRelation(r, op))
  {
    match op
    case Spawn(p) =>
      forall n, k, q ensures Has(Next(t, op), n, k, q) <==> Has(t, n, k, q) {
      }
    case Die(p) => DieInv(t, r, p);
    case Create(n, mode) => CreateInv(t, r, n, mode);
    case Destroy(n) => DestroyInv(t, r, n);
    case Enter(n, k, p) => EnterInv(t, r, n, k, p);
    case Leave(n, k, p) => LeaveInv(t, r, n, k, p);
  }

  lemma {:induction false} RunInv(t: Tables, r: Relation, ops: seq<Op>)
    requires Inv(t, r)
    ensures Inv(Run(t, ops), RunRelation(r, ops))
    decreases |ops|
  {
    if ops != [] {
      NextInv(t, r, ops[0]);
      RunInv(Next(t, ops[0]), NextRelation(r, ops[0]), ops[1..]);
    }
  }

  /** Over any run of the operations, stale owners and registries re-created included, the
      tables mean exactly the relation that the reference operations build; every forward
      entry has its reverse entry; no empty set is left. */
  lemma TablesAreARelation(ops: seq<Op>)
    ensures Means(Run(EMPTY, ops), RunRelation(NOTHING, ops))
    ensures Reversed(Run(EMPTY, ops)) && Clean(Run(EMPTY, ops))
  {
    RunInv(EMPTY, NOTHING, ops);
  }

  /** After any run, when a process dies no table mentions it, and every other entry stays. */
  lemma DeathIsClean(ops: seq<Op>, p: Pid)
    ensures var t := Run(EMPTY, ops);
            var t' := Remove(t, p);
            && p !in t'.processes && p !in t'.procKeys
            && (forall n, k, q :: Has(t', n, k, q) <==> Has(t, n, k, q) && q != p)
            && (forall q :: q != p ==> PairsOf(t', q) == PairsOf(t, q))
  {
    var t, r := Run(EMPTY, ops), RunRelation(NOTHING, ops);
    RunInv(EMPTY, NOTHING, ops);
    DieInv(t, r, p);
    forall n, k, q ensures Has(Remove(t, p), n, k, q) <==> Has(t, n, k, q) && q != p {
      assert Has(t, n, k, q) <==> (n, k, q) in r.entries;
      assert Has(Remove(t, p), n, k, q) <==> (n, k, q) in NextRelation(r, Die(p)).entries;
    }
  }

  /** After any run, looking a key up finds the living processes related to it, and in a
      unique registry at most one; registering is refused exactly when one is found. */
  lemma LookupFindsTheLiving(ops: seq<Op>, n: RegName, k: Key, p: Pid)
    ensures var t := Run(EMPTY, ops);
            var r := RunRelation(NOTHING, ops);
            && Lookup(t, n, k) == Owners(r, n, k) * r.living
            && (n in t.registries && t.registries[n].mode.UniqueMode? ==>
                  && (Register(t, n, k, p).1.AlreadyRegistered? <==> Lookup(t, n, k) != {})
                  && (Register(t, n, k, p).1.AlreadyRegistered? ==> Lookup(t, n, k) == {Register(t, n, k, p).1.owner}))
  {
    var t, r := Run(EMPTY, ops), RunRelation(NOTHING, ops);
    RunInv(EMPTY, NOTHING, ops);
    forall q ensures q in Lookup(t, n, k) <==> q in Owners(r, n, k) && q in r.living {
      assert Has(t, n, k, q) <==> (n, k, q) in r.entries;
    }
  }
}
