/** The runtime's tables as one object, updated in place. */
module Runtimes {
  import opened Identifiers

  import opened Registries
  import N = Names

  class Runtime {
    var processes: set<Pid>
    var registries: map<RegName, Entry>
    var procKeys: map<Pid, set<(RegName, Key)>>
    var registry: map<string, Pid>
    var reverseRegistry: map<Pid, string>

    function Value(): Tables
      reads this
    {
      Tables(processes, registries, procKeys)
    }

    function NamesValue(): N.Names
      reads this
    {
      N.Names(registry, reverseRegistry)
    }

    /** No empty set is kept, and each entry uses only the table of its mode. */
    ghost predicate Valid()
      reads this
    {
      Clean(Value())
    }

    constructor ()
      ensures Valid() && Value() == EMPTY && NamesValue() == N.NO_NAMES
    {
      processes, registries, procKeys, registry, reverseRegistry := {}, map[], map[], map[], map[];
    }

    method Register(p: Pid)
      requires Valid()
      modifies `processes
      ensures Valid()
      ensures Value() == Next(old(Value()), Spawn(p))
    {
      NextClean(Value(), Spawn(p));
      processes := processes + {p};
    }

    /** `RegistryServer.init`; `created` is false when the registry is there already. */
    method CreateRegistry(n: RegName, mode: Mode) returns (created: bool)
      requires Valid()
      modifies `registries
      ensures Valid()
      ensures created == (n !in old(registries)) && Value() == Next(old(Value()), Create(n, mode))
    {
      NextClean(Value(), Create(n, mode));
      created := n !in registries;
      if created {
        registries := registries[n := Entry(mode, map[], map[])];
      }
    }

    /** `RegistryServer._system_teardown` */
    method DestroyRegistry(n: RegName)
      requires Valid()
      modifies `registries
      ensures Valid()
      ensures Value() == Next(old(Value()), Destroy(n))
    {
      NextClean(Value(), Destroy(n));
      registries := registries - {n};
    }

    /** `Registry.register` */
    method RegisterKey(n: RegName, k: Key, p: Pid) returns (outcome: Outcome)
      requires Valid()
      modifies `registries, `procKeys
      ensures Valid()
      ensures (Value(), outcome) == Registries.Register(old(Value()), n, k, p)
    {
      NextClean(Value(), Enter(n, k, p));
      if n !in registries {
        return UnknownRegistry;
      }
      var entry := registries[n];
      if entry.mode.UniqueMode? {
        if k in entry.unique {
          if entry.unique[k] in processes {
            return AlreadyRegistered(entry.unique[k]);
          }
          entry := entry.(unique := entry.unique - {k});
        }
        entry := entry.(unique := entry.unique[k := p]);
      } else {
        var procs := if k in entry.duplicate then entry.duplicate[k] else {};
        entry := entry.(duplicate := entry.duplicate[k := procs + {p}]);
      }
      registries := registries[n := entry];
      procKeys := procKeys[p := (if p in procKeys then procKeys[p] else {}) + {(n, k)}];
      outcome := Registered;
      assert registries[n] == Registries.Register(old(Value()), n, k, p).0.registries[n];
    }

    /** `Registry.lookup` */
    method LookupKey(n: RegName, k: Key) returns (found: set<Pid>)
      ensures found == Lookup(Value(), n, k)
    {
      if n !in registries {
        return {};
      }
      var entry := registries[n];
      if entry.mode.UniqueMode? {
        return if k in entry.unique && entry.unique[k] in processes then {entry.unique[k]} else {};
      }
      found := if k in entry.duplicate then entry.duplicate[k] * processes else {};
    }

    /** `Registry.keys` */
    method KeysOf(n: RegName, p: Pid) returns (keys: set<Key>)
      ensures keys == Keys(Value(), n, p)
    {
      if n !in registries {
        return {};
      }
      var pairs := if p in procKeys then procKeys[p] else {};
      keys := set pair | pair in pairs && pair.0 == n :: pair.1;
    }

    /** Takes `p` out from under one key of one entry. */
    method ScrubKey(n: RegName, k: Key, p: Pid)
      requires n in registries && EntryClean(registries[n])
      modifies `registries
      ensures registries == old(registries)[n := Scrub(old(registries)[n], p, {k})]
    {
      var entry := registries[n];
      if entry.mode.UniqueMode? {
        if k in entry.unique && entry.unique[k] == p {
          entry := entry.(unique := entry.unique - {k});
        }
      } else if k in entry.duplicate {
        var procs := entry.duplicate[k] - {p};
        entry := entry.(duplicate := if procs == {} then entry.duplicate - {k} else entry.duplicate[k := procs]);
      }
      assert entry == Scrub(registries[n], p, {k});
      registries := registries[n := entry];
    }

    /** `Registry.unregister` */
    method UnregisterKey(n: RegName, k: Key, p: Pid)
      requires Valid()
      modifies `registries, `procKeys
      ensures Valid()
      ensures Value() == Unregister(old(Value()), n, k, p)
      ensures PairsOf(Value(), p) == PairsOf(old(Value()), p) - (if n in old(registries) then {(n, k)} else {})
      ensures forall q :: q != p ==> PairsOf(Value(), q) == PairsOf(old(Value()), q)
    {
      NextClean(Value(), Leave(n, k, p));
      if n !in registries {
        return;
      }
      assert EntryClean(Value().registries[n]);
      ScrubKey(n, k, p);
      if p in procKeys {
        var pairs := procKeys[p] - {(n, k)};
        procKeys := if pairs == {} then procKeys - {p} else procKeys[p := pairs];
      }
    }

    /** `Runtime.unregister`: the loop over the process's reverse entry. */
    method UnregisterProcess(p: Pid)
      requires Valid()
      modifies this
      ensures Valid()
      ensures Value() == Remove(old(Value()), p) && NamesValue() == N.RemoveName(old(NamesValue()), p)
    {
      NextClean(Value(), Die(p));
      processes := processes - {p};
      if p in reverseRegistry && reverseRegistry[p] != "" {
        UnregisterName(reverseRegistry[p]);
      }
      var pairs := if p in procKeys then procKeys[p] else {};
      procKeys := procKeys - {p};
      assert forall n :: n in registries ==> EntryClean(old(Value()).registries[n]);
      ScrubPairs(pairs, p);
    }

    method ScrubPairs(pairs: set<(RegName, Key)>, p: Pid)
      requires forall n :: n in registries ==> EntryClean(registries[n])
      modifies `registries
      ensures registries == Scrubbed(old(registries), p, pairs)
    {
      var rest := pairs;
      ghost var done: set<(RegName, Key)> := {};
      ScrubbedNothing(registries, p);
      while rest != {}
        invariant done + rest == pairs && registries == Scrubbed(old(registries), p, done)
        decreases |rest|
      {
        var pair :| pair in rest;
        ScrubbedOneMore(old(registries), p, done, pair);
        if pair.0 in registries {
          ScrubIsClean(old(registries)[pair.0], p, KeysIn(done, pair.0));
          ScrubKey(pair.0, pair.1, p);
        }
        rest, done := rest - {pair}, done + {pair};
      }
      assert done == pairs;
    }

    method RegisterName(name: string, p: Pid)
      requires Valid()
      modifies `registry, `reverseRegistry
      ensures Valid()
      ensures NamesValue() == N.RegisterName(old(NamesValue()), name, p)
    {
      if p in reverseRegistry && reverseRegistry[p] != "" && reverseRegistry[p] != name {
        registry := registry - {reverseRegistry[p]};
      }
      if name in registry && registry[name] != p {
        reverseRegistry := reverseRegistry - {registry[name]};
      }
      registry := registry[name := p];
      reverseRegistry := reverseRegistry[p := name];
    }

    method UnregisterName(name: string)
      requires Valid()
      modifies `registry, `reverseRegistry
      ensures Valid()
      ensures NamesValue() == N.UnregisterName(old(NamesValue()), name)
    {
      if name in registry {
        var p := registry[name];
        registry := registry - {name};
        reverseRegistry := reverseRegistry - {p};
      }
    }
  }

  lemma ScrubTwice(e: Entry, p: Pid, ks: set<Key>, k: Key)
    requires EntryClean(e)
    ensures Scrub(Scrub(e, p, ks), p, {k}) == Scrub(e, p, ks + {k})
  {
    var twice, once := Scrub(Scrub(e, p, ks), p, {k}), Scrub(e, p, ks + {k});
    assert twice.unique == once.unique;
    forall j | j in e.duplicate ensures e.duplicate[j] - {p} - {p} == e.duplicate[j] - {p} {
    }
    assert twice.duplicate == once.duplicate;
  }

  lemma ScrubNothing(e: Entry, p: Pid)
    requires EntryClean(e)
    ensures Scrub(e, p, {}) == e
  {
  }

  lemma ScrubbedNothing(registries: map<RegName, Entry>, p: Pid)
    requires forall n :: n in registries ==> EntryClean(registries[n])
    ensures Scrubbed(registries, p, {}) == registries
  {
    forall n | n in registries ensures Scrubbed(registries, p, {})[n] == registries[n] {
      assert KeysIn({}, n) == {};
      ScrubNothing(registries[n], p);
    }
  }

  lemma ScrubbedOneMore(registries: map<RegName, Entry>, p: Pid, pairs: set<(RegName, Key)>, pair: (RegName, Key))
    requires forall n :: n in registries ==> EntryClean(registries[n])
    ensures var before, after := Scrubbed(registries, p, pairs), Scrubbed(registries, p, pairs + {pair});
            after == if pair.0 in registries then before[pair.0 := Scrub(before[pair.0], p, {pair.1})] else before
  {
    var before, after := Scrubbed(registries, p, pairs), Scrubbed(registries, p, pairs + {pair});
    forall n | n in registries
      ensures after[n] == if n == pair.0 then Scrub(before[n], p, {pair.1}) else before[n]
    {
      if n == pair.0 {
        assert KeysIn(pairs + {pair}, n) == KeysIn(pairs, n) + {pair.1};
        ScrubTwice(registries[n], p, KeysIn(pairs, n), pair.1);
      } else {
        assert KeysIn(pairs + {pair}, n) == KeysIn(pairs, n);
      }
    }
  }
}
