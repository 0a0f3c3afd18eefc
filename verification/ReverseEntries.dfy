/** The reverse table, from process to registered keys: what it holds after any run, and
    when `Registry.keys` tells the truth. */
module ReverseEntries {
  import opened Identifiers

  import opened Registries

  /** Unregistering takes exactly one pair out of the reverse table, and leaves no empty set. */
  lemma UnregisteringForgets(t: Tables, n: RegName, k: Key, p: Pid)
    requires Clean(t) && n in t.registries
    ensures var t' := Unregister(t, n, k, p);
            && !Has(t', n, k, p) && (n, k) !in PairsOf(t', p)
            && (forall m, j, q :: (m, j) in PairsOf(t', q) <==>
                  (m, j) in PairsOf(t, q) && !(m == n && j == k && q == p))
            && (forall m, j, q :: Has(t', m, j, q) <==> Has(t, m, j, q) && !(m == n && j == k && q == p))
            && (p in t'.procKeys <==> exists m, j :: (m, j) in PairsOf(t, p) && !(m == n && j == k))
  {
    var t' := Unregister(t, n, k, p);
    forall m, j, q ensures Has(t', m, j, q) <==> Has(t, m, j, q) && !(m == n && j == k && q == p) {
      ScrubEntered(t.registries[n], p, {k}, j, q);
    }
    if p in t'.procKeys {
      assert t'.procKeys[p] != {} by { UnregisterClean(t, n, k, p); }
      var pair :| pair in t'.procKeys[p];
      assert (pair.0, pair.1) in PairsOf(t, p) && !(pair.0 == n && pair.1 == k);
    }
  }

  // ---------------------------------------------------------------------
  // After any run
  // ---------------------------------------------------------------------

  type Notes = set<(RegName, Key, Pid)>

  /** Registering succeeds: the registry is known and, if it is unique, no living process is
      under the key. */
  predicate Admits(r: Relation, n: RegName, k: Key) {
    n in r.modes && (r.modes[n].UniqueMode? ==> Owners(r, n, k) * r.living == {})
  }

  /** The reference meaning: noted when registered, struck out when unregistered from a known
      registry or dead; registries come and go without a trace. */
  function NextNotes(notes: Notes, r: Relation, op: Op): Notes {
    match op
    case Enter(n, k, p) => if Admits(r, n, k) then notes + {(n, k, p)} else notes
    case Leave(n, k, p) => if n in r.modes then notes - {(n, k, p)} else notes
    case Die(p) => set e | e in notes && e.2 != p
    case _ => notes
  }

  function RunNotes(notes: Notes, r: Relation, ops: seq<Op>): Notes
    decreases |ops|
  {
    if ops == [] then notes else RunNotes(NextNotes(notes, r, ops[0]), NextRelation(r, ops[0]), ops[1..])
  }

  ghost predicate Noting(t: Tables, notes: Notes) {
    forall n, k, p :: (n, k) in PairsOf(t, p) <==> (n, k, p) in notes
  }

  lemma AdmitsIsRegistered(t: Tables, r: Relation, n: RegName, k: Key, p: Pid)
    requires Inv(t, r)
    ensures Admits(r, n, k) <==> Register(t, n, k, p).1.Registered?
  {
    if n in t.registries && t.registries[n].mode.UniqueMode? {
      OwnersAre(t, r, n, k);
      var unique := t.registries[n].unique;
      assert k in unique && unique[k] in t.processes ==> unique[k] in Owners(r, n, k) * r.living;
    }
  }

  /** What registering answers after any run: a registry that is not there is unknown; in a
      unique one the living owner of the key is named; otherwise the process is entered, in
      both directions. A refusal changes nothing. */
  lemma RegisteringAnswers(ops: seq<Op>, n: RegName, k: Key, p: Pid)
    ensures var t := Run(EMPTY, ops);
            var (t', outcome) := Register(t, n, k, p);
            && (outcome.UnknownRegistry? <==> n !in t.registries)
            && (outcome.AlreadyRegistered? <==>
                  n in t.registries && t.registries[n].mode.UniqueMode? && Lookup(t, n, k) != {})
            && (outcome.AlreadyRegistered? ==> Lookup(t, n, k) == {outcome.owner})
            && (if outcome.Registered? then Has(t', n, k, p) && (n, k) in PairsOf(t', p) else t' == t)
  {
    LookupFindsTheLiving(ops, n, k, p);
  }

  lemma EnterNotes(t: Tables, r: Relation, notes: Notes, n: RegName, k: Key, p: Pid)
    requires Inv(t, r) && Noting(t, notes)
    ensures Noting(Register(t, n, k, p).0, NextNotes(notes, r, Enter(n, k, p)))
  {
    AdmitsIsRegistered(t, r, n, k, p);
    var t' := Register(t, n, k, p).0;
    forall m, j, q
      ensures (m, j) in PairsOf(t', q) <==>
        (m, j) in PairsOf(t, q) || (Admits(r, n, k) && m == n && j == k && q == p)
    {
    }
  }

  lemma NextNoting(t: Tables, r: Relation, notes: Notes, op: Op)
    requires Inv(t, r) && Noting(t, notes)
    ensures Noting(Next(t, op), NextNotes(notes, r, op))
  {
    match op
    case Enter(n, k, p) => EnterNotes(t, r, notes, n, k, p);
    case Leave(n, k, p) =>
      if n in t.registries {
        UnregisteringForgets(t, n, k, p);
      }
    case _ =>
  }

  lemma {:induction false} RunNoting(t: Tables, r: Relation, notes: Notes, ops: seq<Op>)
    requires Inv(t, r) && Noting(t, notes)
    ensures Noting(Run(t, ops), RunNotes(notes, r, ops))
    decreases |ops|
  {
    if ops != [] {
      NextInv(t, r, ops[0]);
      NextNoting(t, r, notes, ops[0]);
      RunNoting(Next(t, ops[0]), NextRelation(r, ops[0]), NextNotes(notes, r, ops[0]), ops[1..]);
    }
  }

  /** After any run a process's reverse entry holds exactly the pairs it was registered under
      and has since neither left, while the registry was known, nor died with. */
  lemma ReverseEntriesAreNotes(ops: seq<Op>, n: RegName, k: Key, p: Pid)
    ensures (n, k) in PairsOf(Run(EMPTY, ops), p) <==> (n, k, p) in RunNotes({}, NOTHING, ops)
  {
    RunNoting(EMPTY, NOTHING, {}, ops);
  }

  // ---------------------------------------------------------------------
  // When they agree with the forward entries
  // ---------------------------------------------------------------------

  /** No registry is taken down, and only living processes register. */
  ghost predicate Orderly(t: Tables, ops: seq<Op>)
    decreases |ops|
  {
    ops == [] || (!ops[0].Destroy? && (ops[0].Enter? ==> ops[0].p in t.processes) && Orderly(Next(t, ops[0]), ops[1..]))
  }

  /** Both directions tell the same, and only of living processes. */
  ghost predicate Agree(t: Tables) {
    && (forall n, k, p {:trigger Has(t, n, k, p)} :: Has(t, n, k, p) ==> p in t.processes)
    && (forall n, k, p {:trigger Has(t, n, k, p)} :: Has(t, n, k, p) <==> (n, k) in PairsOf(t, p))
  }

  lemma EnterAgrees(t: Tables, n: RegName, k: Key, p: Pid)
    requires Clean(t) && Agree(t) && p in t.processes
    ensures Agree(Register(t, n, k, p).0)
  {
    if Register(t, n, k, p).1.Registered? {
      var t' := Register(t, n, k, p).0;
      var e := t.registries[n];
      assert e.mode.UniqueMode? && k in e.unique ==> Has(t, n, k, e.unique[k]);
      forall m, j, q
        ensures Has(t', m, j, q) <==> Has(t, m, j, q) || (m == n && j == k && q == p)
        ensures (m, j) in PairsOf(t', q) <==> (m, j) in PairsOf(t, q) || (m == n && j == k && q == p)
      {
      }
    }
  }

  lemma DieAgrees(t: Tables, p: Pid)
    requires Clean(t) && Agree(t)
    ensures Agree(Remove(t, p))
  {
    var t' := Remove(t, p);
    forall n, k, q ensures Has(t', n, k, q) <==> Has(t, n, k, q) && q != p {
      if n in t.registries {
        ScrubEntered(t.registries[n], p, KeysIn(PairsOf(t, p), n), k, q);
        if Has(t, n, k, p) {
          assert (n, k) in PairsOf(t, p);
          assert k in KeysIn(PairsOf(t, p), n);
        }
      }
    }
  }

  lemma NextAgrees(t: Tables, op: Op)
    requires Clean(t) && Agree(t) && !op.Destroy? && (op.Enter? ==> op.p in t.processes)
    ensures Agree(Next(t, op))
  {
    var t' := Next(t, op);
    match op
    case Enter(n, k, p) => EnterAgrees(t, n, k, p);
    case Leave(n, k, p) =>
      if n in t.registries {
        UnregisteringForgets(t, n, k, p);
      }
    case Die(p) => DieAgrees(t, p);
    case Spawn(_) => assert forall m, k, q :: Has(t', m, k, q) <==> Has(t, m, k, q);
    case Create(_, _) => assert forall m, k, q :: Has(t', m, k, q) <==> Has(t, m, k, q);
  }

  lemma {:induction false} RunAgrees(t: Tables, ops: seq<Op>)
    requires Clean(t) && Agree(t) && Orderly(t, ops)
    ensures Agree(Run(t, ops))
    decreases |ops|
  {
    if ops != [] {
      NextClean(t, ops[0]);
      NextAgrees(t, ops[0]);
      RunAgrees(Next(t, ops[0]), ops[1..]);
    }
  }

  /** In a run in which no registry is taken down and only living processes register, a
      process's reverse entry holds exactly the pairs it is registered under, so that
      `Registry.keys` lists just the keys under which `lookup` finds it. */
  lemma KeysTellTheTruth(ops: seq<Op>, n: RegName, k: Key, p: Pid)
    requires Orderly(EMPTY, ops)
    ensures var t := Run(EMPTY, ops);
            && ((n, k) in PairsOf(t, p) <==> Has(t, n, k, p))
            && (k in Keys(t, n, p) <==> Has(t, n, k, p))
            && (k in Keys(t, n, p) <==> p in Lookup(t, n, k))
  {
    RunAgrees(EMPTY, ops);
    var t := Run(EMPTY, ops);
    assert Has(t, n, k, p) <==> (n, k) in PairsOf(t, p);
    KeysArePairs(t, n, k, p);
  }

  lemma KeysArePairs(t: Tables, n: RegName, k: Key, p: Pid)
    ensures k in Keys(t, n, p) <==> n in t.registries && (n, k) in PairsOf(t, p)
  {
    if n in t.registries && (n, k) in PairsOf(t, p) {
      assert k in KeysIn(PairsOf(t, p), n);
    }
  }

  /** A registry taken down and created again under the same name: its keys are gone, but
      the reverse entry still has them. */
  lemma KeysCanBeStale(n: RegName, mode: Mode, k: Key, p: Pid)
    ensures var t := Run(EMPTY, [Spawn(p), Create(n, mode), Enter(n, k, p), Destroy(n), Create(n, mode)]);
            k in Keys(t, n, p) && !Has(t, n, k, p)
  {
    var t1 := Next(Next(EMPTY, Spawn(p)), Create(n, mode));
    var t2 := Next(t1, Enter(n, k, p));
    var t3 := Next(Next(t2, Destroy(n)), Create(n, mode));
    assert Run(EMPTY, [Spawn(p), Create(n, mode), Enter(n, k, p), Destroy(n), Create(n, mode)]) == t3 by {
      RunTwo(EMPTY, Spawn(p), Create(n, mode), [Enter(n, k, p), Destroy(n), Create(n, mode)]);
      RunTwo(t1, Enter(n, k, p), Destroy(n), [Create(n, mode)]);
      assert [Create(n, mode)][1..] == [];
      assert Run(Next(t2, Destroy(n)), [Create(n, mode)]) == Run(t3, []);
    }
    assert (n, k) in PairsOf(t2, p) && t3.procKeys == t2.procKeys;
    KeysArePairs(t3, n, k, p);
  }

  lemma RunTwo(t: Tables, op1: Op, op2: Op, rest: seq<Op>)
    ensures Run(t, [op1, op2] + rest) == Run(Next(Next(t, op1), op2), rest)
  {
    var ops := [op1, op2] + rest;
    assert ops[1..] == [op2] + rest && ops[1..][1..] == rest;
    assert Run(Next(t, op1), ops[1..]) == Run(Next(Next(t, op1), op2), rest);
  }
}
