/** Global names: `registry` from name to process and `_reverse_registry` back. */
module Names {
  import opened Identifiers

  datatype Names = Names(registry: map<string, Pid>, reverse: map<Pid, string>)

  const NO_NAMES: Names := Names(map[], map[])

  /** `register_name`. A name already held is looked at by truth value, so the empty one
      goes unseen; ids are never empty. */
  function RegisterName(t: Names, name: string, p: Pid): Names {
    var registry1 :=
      if p in t.reverse && t.reverse[p] != "" && t.reverse[p] != name then t.registry - {t.reverse[p]} else t.registry;
    var reverse1 :=
      if name in registry1 && registry1[name] != p then t.reverse - {registry1[name]} else t.reverse;
    Names(registry1[name := p], reverse1[p := name])
  }

  /** `unregister_name` */
  function UnregisterName(t: Names, name: string): Names {
    if name !in t.registry then t
    else Names(t.registry - {name}, t.reverse - {t.registry[name]})
  }

  /** `Runtime.unregister`, its names part; again the empty name goes unseen. */
  function RemoveName(t: Names, p: Pid): Names {
    if p in t.reverse && t.reverse[p] != "" then UnregisterName(t, t.reverse[p]) else t
  }

  /** Each table is the inverse of the other. */
  ghost predicate Inverse(t: Names) {
    && (forall name :: name in t.registry ==> t.registry[name] in t.reverse && t.reverse[t.registry[name]] == name)
    && (forall p :: p in t.reverse ==> t.reverse[p] in t.registry && t.registry[t.reverse[p]] == p)
  }

  predicate Named(t: Names, name: string, p: Pid) {
    name in t.registry && t.registry[name] == p
  }

  /** The process is moved to the name, and the name to the process. */
  lemma RegisteringMoves(t: Names, name: string, p: Pid)
    requires Inverse(t) && !(p in t.reverse && t.reverse[p] == "" && name != "")
    ensures var t' := RegisterName(t, name, p);
            && Inverse(t')
            && (forall n, q :: Named(t', n, q) <==> (n == name && q == p) || (Named(t, n, q) && n != name && q != p))
  {
    var t' := RegisterName(t, name, p);
    forall n, q ensures Named(t', n, q) <==> (n == name && q == p) || (Named(t, n, q) && n != name && q != p) {
    }
  }

  /** `register_name` keeps the tables inverse exactly when it does not rename a process
      registered under the empty name. */
  lemma RegisteringKeepsInverse(t: Names, name: string, p: Pid)
    requires Inverse(t)
    ensures Inverse(RegisterName(t, name, p)) <==> !(p in t.reverse && t.reverse[p] == "" && name != "")
  {
    var t' := RegisterName(t, name, p);
    if p in t.reverse && t.reverse[p] == "" && name != "" {
      assert t'.registry[""] == p && t'.reverse[p] == name;
    } else {
      RegisteringMoves(t, name, p);
    }
  }

  /** A process leaves both tables when it dies, exactly unless its name is empty. */
  lemma DeathFreesName(t: Names, p: Pid)
    requires Inverse(t)
    ensures var t' := RemoveName(t, p);
            && Inverse(t')
            && (p !in t'.reverse && p !in t'.registry.Values <==> !(p in t.reverse && t.reverse[p] == ""))
            && (forall n ::
                 n in t.registry && t.registry[n] != p ==> n in t'.registry && t'.registry[n] == t.registry[n])
  {
    var t' := RemoveName(t, p);
    if p in t'.registry.Values {
      var n :| n in t'.registry && t'.registry[n] == p;
      assert t.reverse[p] == n;
    }
    if p in t.reverse && t.reverse[p] == "" {
      assert t'.registry[""] == p;
    }
  }

  datatype Op = Take(name: string, p: Pid) | Give(name: string) | Die(p: Pid)

  function Next(t: Names, op: Op): Names {
    match op
    case Take(name, p) => RegisterName(t, name, p)
    case Give(name) => UnregisterName(t, name)
    case Die(p) => RemoveName(t, p)
  }

  function Run(t: Names, ops: seq<Op>): Names
    decreases |ops|
  {
    if ops == [] then t else Run(Next(t, ops[0]), ops[1..])
  }

  /** The operation renames the process registered under the empty name. */
  predicate RenamesEmpty(t: Names, op: Op) {
    op.Take? && op.name != "" && op.p in t.reverse && t.reverse[op.p] == ""
  }

  /** One operation keeps the tables inverse exactly if it does not do that. */
  lemma NextKeepsInverse(t: Names, op: Op)
    requires Inverse(t)
    ensures Inverse(Next(t, op)) <==> !RenamesEmpty(t, op)
  {
    match op
    case Take(name, p) => RegisteringKeepsInverse(t, name, p);
    case Give(name) =>
    case Die(p) => DeathFreesName(t, p);
  }

  ghost predicate InverseThroughout(t: Names, ops: seq<Op>)
    decreases |ops|
  {
    Inverse(t) && (ops == [] || InverseThroughout(Next(t, ops[0]), ops[1..]))
  }

  ghost predicate NeverRenamesEmpty(t: Names, ops: seq<Op>)
    decreases |ops|
  {
    ops == [] || (!RenamesEmpty(t, ops[0]) && NeverRenamesEmpty(Next(t, ops[0]), ops[1..]))
  }

  lemma {:induction false} InverseAlong(t: Names, ops: seq<Op>)
    requires Inverse(t)
    ensures InverseThroughout(t, ops) <==> NeverRenamesEmpty(t, ops)
    decreases |ops|
  {
    if ops != [] {
      NextKeepsInverse(t, ops[0]);
      if !RenamesEmpty(t, ops[0]) {
        InverseAlong(Next(t, ops[0]), ops[1..]);
      }
    }
  }

  /** From the start the tables are inverse at every moment if and only if no process is
      renamed while it is registered under the empty name. */
  lemma InverseExactlyWhen(ops: seq<Op>)
    ensures InverseThroughout(NO_NAMES, ops) <==> NeverRenamesEmpty(NO_NAMES, ops)
  {
    InverseAlong(NO_NAMES, ops);
  }

  // ---------------------------------------------------------------------
  // The names as one relation
  // ---------------------------------------------------------------------

  type Pairs = set<(string, Pid)>

  /** The reference meaning: a name has one process and a process one name; who dies loses it,
      unless it is the empty one. */
  function NextPairs(pairs: Pairs, op: Op): Pairs {
    match op
    case Take(name, p) => (set e | e in pairs && e.0 != name && e.1 != p) + {(name, p)}
    case Give(name) => set e | e in pairs && e.0 != name
    case Die(p) => set e | e in pairs && (e.1 != p || e.0 == "")
  }

  function RunPairs(pairs: Pairs, ops: seq<Op>): Pairs
    decreases |ops|
  {
    if ops == [] then pairs else RunPairs(NextPairs(pairs, ops[0]), ops[1..])
  }

  lemma NextIsRelation(t: Names, op: Op, pairs: Pairs)
    requires Inverse(t) && !RenamesEmpty(t, op)
    requires forall n, q :: Named(t, n, q) <==> (n, q) in pairs
    ensures forall n, q :: Named(Next(t, op), n, q) <==> (n, q) in NextPairs(pairs, op)
  {
    match op
    case Take(name, p) => RegisteringMoves(t, name, p);
    case Give(name) =>
    case Die(p) =>
  }

  lemma {:induction false} RunIsRelation(t: Names, ops: seq<Op>, pairs: Pairs)
    requires Inverse(t) && NeverRenamesEmpty(t, ops)
    requires forall n, q :: Named(t, n, q) <==> (n, q) in pairs
    ensures forall n, q :: Named(Run(t, ops), n, q) <==> (n, q) in RunPairs(pairs, ops)
    decreases |ops|
  {
    if ops != [] {
      NextKeepsInverse(t, ops[0]);
      NextIsRelation(t, ops[0], pairs);
      RunIsRelation(Next(t, ops[0]), ops[1..], NextPairs(pairs, ops[0]));
    }
  }

  /** After any such run the names are exactly those of the reference relation. */
  lemma NamesAreARelation(ops: seq<Op>, name: string, p: Pid)
    requires NeverRenamesEmpty(NO_NAMES, ops)
    ensures Named(Run(NO_NAMES, ops), name, p) <==> (name, p) in RunPairs({}, ops)
  {
    RunIsRelation(NO_NAMES, ops, {});
  }

  // ---------------------------------------------------------------------
  // The empty name
  // ---------------------------------------------------------------------

  ghost predicate NonEmptyNames(ops: seq<Op>) {
    forall i :: 0 <= i < |ops| && ops[i].Take? ==> ops[i].name != ""
  }

  lemma {:induction false} RunKeepsInverse(t: Names, ops: seq<Op>)
    requires Inverse(t) && "" !in t.registry && NonEmptyNames(ops)
    ensures Inverse(Run(t, ops)) && "" !in Run(t, ops).registry
    decreases |ops|
  {
    if ops != [] {
      assert forall i :: 0 <= i < |ops[1..]| ==> ops[1..][i] == ops[i + 1];
      match ops[0]
      case Take(name, p) =>
        assert p in t.reverse ==> t.reverse[p] in t.registry;
        RegisteringMoves(t, name, p);
        RunKeepsInverse(RegisterName(t, name, p), ops[1..]);
      case Give(name) =>
        RunKeepsInverse(UnregisterName(t, name), ops[1..]);
      case Die(p) =>
        DeathFreesName(t, p);
        RunKeepsInverse(RemoveName(t, p), ops[1..]);
    }
  }

  /** With non-empty names the two tables are inverse to each other after any run, so a
      dead process has no name left. */
  lemma NamesAreInverse(ops: seq<Op>, p: Pid)
    requires NonEmptyNames(ops)
    ensures Inverse(Run(NO_NAMES, ops))
    ensures var t := RemoveName(Run(NO_NAMES, ops), p); p !in t.reverse && p !in t.registry.Values
  {
    RunKeepsInverse(NO_NAMES, ops);
    DeathFreesName(Run(NO_NAMES, ops), p);
  }

  /** Whoever holds the empty name keeps it, renamed and dead as it may be, until that name
      itself is given up or taken. */
  lemma {:induction false} EmptyNameStays(t: Names, ops: seq<Op>, p: Pid)
    requires Named(t, "", p)
    requires forall i :: 0 <= i < |ops| && !ops[i].Die? ==> ops[i].name != ""
    ensures Named(Run(t, ops), "", p)
    decreases |ops|
  {
    if ops != [] {
      assert forall i :: 0 <= i < |ops[1..]| ==> ops[1..][i] == ops[i + 1];
      match ops[0]
      case Take(name, q) => EmptyNameStays(RegisterName(t, name, q), ops[1..], p);
      case Give(name) => EmptyNameStays(UnregisterName(t, name), ops[1..], p);
      case Die(q) => EmptyNameStays(RemoveName(t, q), ops[1..], p);
    }
  }

  /** So the empty name of a renamed process outlives it. */
  lemma EmptyNameOutlives(p: Pid, name: string, ops: seq<Op>)
    requires name != ""
    requires forall i :: 0 <= i < |ops| && !ops[i].Die? ==> ops[i].name != ""
    ensures !Inverse(Run(NO_NAMES, [Take("", p), Take(name, p)]))
    ensures Named(Run(Run(NO_NAMES, [Take("", p), Take(name, p), Die(p)]), ops), "", p)
  {
    var start := [Take("", p), Take(name, p)];
    var t1 := RegisterName(NO_NAMES, "", p);
    var t2 := RegisterName(t1, name, p);
    assert Run(NO_NAMES, start) == t2 by {
      assert start[1..] == [Take(name, p)];
      assert Run(t1, start[1..]) == Run(t2, []);
    }
    assert t2.registry[""] == p && t2.reverse[p] == name;
    var all := [Take("", p), Take(name, p), Die(p)];
    assert Run(NO_NAMES, all) == RemoveName(t2, p) by {
      assert all[1..] == [Take(name, p), Die(p)] && all[1..][1..] == [Die(p)];
      assert Run(t2, [Die(p)]) == Run(RemoveName(t2, p), []);
    }
    EmptyNameStays(RemoveName(t2, p), ops, p);
  }
}
