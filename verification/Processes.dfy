/** Processes as objects that hold each other in their tables. Each method is what one
    process does between two awaits, proved to do to the tables of the whole group what the
    functions on values say. */
module Processes {
  import opened Identifiers
  import opened Wrappers

  import opened Links
  import C = Calls
  import K = Cascade
  import M = Monitors

  datatype Mail = DownMail(ref: Ref) | ExitMail(sender: Pid) | StopMail(sender: Pid) | OtherMail

  ghost function Ids(ps: set<Process>): set<Pid> {
    set p | p in ps :: p.id
  }

  ghost function RefIds(m: map<Ref, Process>): map<Ref, Pid> {
    map ref | ref in m :: m[ref].id
  }

  ghost predicate DifferentIds(ps: set<Process>) {
    forall p, q :: p in ps && q in ps && p.id == q.id ==> p == q
  }

  lemma IdsPlus(ps: set<Process>, q: Process)
    ensures Ids(ps + {q}) == Ids(ps) + {q.id}
  {
  }

  lemma IdsMinus(ps: set<Process>, q: Process, all: set<Process>)
    requires DifferentIds(all) && ps <= all && q in all
    ensures Ids(ps - {q}) == Ids(ps) - {q.id}
  {
    forall x | x in Ids(ps) - {q.id} ensures x in Ids(ps - {q}) {
      var p :| p in ps && p.id == x;
      assert p in ps - {q};
    }
  }

  lemma RefIdsUpdate(m: map<Ref, Process>, ref: Ref, q: Process)
    ensures RefIds(m[ref := q]) == RefIds(m)[ref := q.id]
  {
  }

  lemma RefIdsRemove(m: map<Ref, Process>, ref: Ref)
    ensures RefIds(m - {ref}) == RefIds(m) - {ref}
  {
  }

  lemma CutOneMore(who: map<Ref, Pid>, b: Pid, held: map<Ref, Pid>, refs: set<Ref>, ref: Ref)
    requires ref !in refs
    ensures M.Cut(M.Cut(who, b, held, refs), b, held - refs, {ref}) == M.Cut(who, b, held, refs + {ref})
    ensures held - refs - {ref} == held - (refs + {ref})
  {
  }

  /** Dropping one more ref. */
  lemma DroppedOneMore(w: M.World, a: Pid, refs: set<Ref>, ref: Ref)
    requires M.Shaped(w) && a in w.links && ref !in refs
    ensures M.Dropped(M.Dropped(w, a, refs), a, {ref}) == M.Dropped(w, a, refs + {ref})
  {
    var w1, w2 := M.Dropped(M.Dropped(w, a, refs), a, {ref}), M.Dropped(w, a, refs + {ref});
    CutOneMore(map[], a, w.monitors[a], refs, ref);
    assert w1.monitors == w2.monitors;
    forall b | b in w.monitoredBy ensures w1.monitoredBy[b] == w2.monitoredBy[b] {
      CutOneMore(w.monitoredBy[b], b, w.monitors[a], refs, ref);
    }
  }

  lemma CutNothing(who: map<Ref, Pid>, b: Pid, held: map<Ref, Pid>, refs: set<Ref>)
    requires refs !! held.Keys
    ensures M.Cut(who, b, held, refs) == who && held - refs == held
  {
  }

  predicate PartDone(refs: set<Ref>, done: set<Ref>, rest: set<Ref>) {
    done + rest == refs
  }

  lemma PartDoneOne(refs: set<Ref>, done: set<Ref>, rest: set<Ref>, ref: Ref)
    requires PartDone(refs, done, rest) && ref in rest
    ensures PartDone(refs, done + {ref}, rest - {ref}) && |rest - {ref}| < |rest|
  {
  }

  lemma DroppedNothing(w: M.World, a: Pid, refs: set<Ref>)
    requires M.Shaped(w) && a in w.links && refs !! w.monitors[a].Keys
    ensures M.Dropped(w, a, refs) == w
  {
    CutNothing(map[], a, w.monitors[a], refs);
    forall b | b in w.monitoredBy ensures M.Dropped(w, a, refs).monitoredBy[b] == w.monitoredBy[b] {
      CutNothing(w.monitoredBy[b], b, w.monitors[a], refs);
    }
  }

  /** One process's tables, as values. */
  datatype Row = Row(links: set<Pid>, monitors: map<Ref, Pid>, monitoredBy: map<Ref, Pid>)

  ghost function RowOf(w: M.World, x: Pid): Row
    requires M.Shaped(w) && x in w.links
  {
    Row(w.links[x], w.monitors[x], w.monitoredBy[x])
  }

  /** Tables that name nobody outside `ps` and hold what `row` says. */
  ghost predicate Holds(ps: set<Process>, row: Row, links: set<Process>, monitors: map<Ref, Process>,
                        monitoredBy: map<Ref, Process>)
  {
    && links <= ps
    && (forall ref :: ref in monitors ==> monitors[ref] in ps)
    && (forall ref :: ref in monitoredBy ==> monitoredBy[ref] in ps)
    && row == Row(Ids(links), RefIds(monitors), RefIds(monitoredBy))
  }

  ghost predicate Fits(p: Process, ps: set<Process>, row: Row)
    reads p`links, p`monitors, p`monitoredBy
  {
    Holds(ps, row, p.links, p.monitors, p.monitoredBy)
  }

  /** Entering a monitor at one end, the other, or both. */
  lemma HoldsEntered(ps: set<Process>, row: Row, links: set<Process>, mons: map<Ref, Process>, who: map<Ref, Process>,
                     ref: Ref, q: Process, here: bool, p: Process, there: bool)
    requires Holds(ps, row, links, mons, who) && q in ps && p in ps
    ensures Holds(ps, Row(row.links, if here then row.monitors[ref := q.id] else row.monitors,
                          if there then row.monitoredBy[ref := p.id] else row.monitoredBy),
                  links, if here then mons[ref := q] else mons, if there then who[ref := p] else who)
  {
    RefIdsUpdate(mons, ref, q);
    RefIdsUpdate(who, ref, p);
  }

  lemma HoldsRemoved(ps: set<Process>, row: Row, links: set<Process>, mons: map<Ref, Process>, who: map<Ref, Process>,
                     ref: Ref, here: bool, there: bool)
    requires Holds(ps, row, links, mons, who)
    ensures Holds(ps, Row(row.links, if here then row.monitors - {ref} else row.monitors,
                          if there then row.monitoredBy - {ref} else row.monitoredBy),
                  links, if here then mons - {ref} else mons, if there then who - {ref} else who)
  {
    RefIdsRemove(mons, ref);
    RefIdsRemove(who, ref);
  }

  lemma HoldsLinked(ps: set<Process>, row: Row, links: set<Process>, mons: map<Ref, Process>, who: map<Ref, Process>,
                    q: Process)
    requires Holds(ps, row, links, mons, who) && q in ps && DifferentIds(ps)
    ensures Holds(ps, row.(links := row.links + {q.id}), links + {q}, mons, who)
    ensures Holds(ps, row.(links := row.links - {q.id}), links - {q}, mons, who)
  {
    IdsPlus(links, q);
    IdsMinus(links, q, ps);
  }

  /** A group of processes with different ids, knowing no others, whose tables are `w`. */
  ghost predicate Group(ps: set<Process>, w: M.World)
    reads ps`links, ps`monitors, ps`monitoredBy
  {
    && DifferentIds(ps)
    && M.Shaped(w)
    && w.links.Keys == Ids(ps)
    && forall p {:trigger FitsWorld(p, ps, w)} :: p in ps ==> FitsWorld(p, ps, w)
  }

  ghost predicate FitsWorld(p: Process, ps: set<Process>, w: M.World)
    requires M.Shaped(w)
    reads p`links, p`monitors, p`monitoredBy
  {
    p.id in w.links && Fits(p, ps, RowOf(w, p.id))
  }

  // What the mailboxes hold, as values.

  /** The refs of the Down messages in a mailbox. */
  function Downs(inbox: seq<Mail>): seq<Ref> {
    if inbox == [] then []
    else if inbox[|inbox| - 1].DownMail? then Downs(inbox[..|inbox| - 1]) + [inbox[|inbox| - 1].ref]
    else Downs(inbox[..|inbox| - 1])
  }

  /** The senders of the Exit messages in a mailbox. */
  function Exits(inbox: seq<Mail>): seq<Pid> {
    if inbox == [] then []
    else if inbox[|inbox| - 1].ExitMail? then Exits(inbox[..|inbox| - 1]) + [inbox[|inbox| - 1].sender]
    else Exits(inbox[..|inbox| - 1])
  }

  predicate HasStop(inbox: seq<Mail>) {
    exists i :: 0 <= i < |inbox| && inbox[i].StopMail?
  }

  lemma DownsPlus(inbox: seq<Mail>, mail: Mail)
    ensures Downs(inbox + [mail]) == if mail.DownMail? then Downs(inbox) + [mail.ref] else Downs(inbox)
  {
    assert (inbox + [mail])[..|inbox|] == inbox;
  }

  lemma {:induction false} DownsHead(ref: Ref, rest: seq<Mail>)
    ensures Downs([DownMail(ref)] + rest) == [ref] + Downs(rest)
    decreases |rest|
  {
    var inbox := [DownMail(ref)] + rest;
    if rest == [] {
      assert inbox[..0] == [];
    } else {
      var front, last := rest[..|rest| - 1], rest[|rest| - 1];
      assert inbox[..|inbox| - 1] == [DownMail(ref)] + front && inbox[|inbox| - 1] == last;
      DownsHead(ref, front);
      if last.DownMail? {
        assert [ref] + (Downs(front) + [last.ref]) == [ref] + Downs(front) + [last.ref];
      }
    }
  }

  lemma MailPlus(inbox: seq<Mail>, mail: Mail)
    ensures Exits(inbox + [mail]) == if mail.ExitMail? then Exits(inbox) + [mail.sender] else Exits(inbox)
    ensures HasStop(inbox + [mail]) <==> HasStop(inbox) || mail.StopMail?
  {
    var more := inbox + [mail];
    assert more[..|inbox|] == inbox;
    assert more[|inbox|] == mail;
    assert forall i :: 0 <= i < |inbox| ==> more[i] == inbox[i];
  }

  /** The mailbox is open while the process runs; its Down messages are those of `n`. */
  ghost predicate HasMail(p: Process, n: M.Net)
    requires M.Known(n)
    reads p`open, p`inbox
  {
    p.id in n.stage && (p.open <==> n.stage[p.id].Running?) && Downs(p.inbox) == n.mail[p.id]
  }

  ghost predicate MailIs(ps: set<Process>, n: M.Net)
    requires M.Known(n)
    reads ps`open, ps`inbox
  {
    forall p {:trigger HasMail(p, n)} :: p in ps ==> HasMail(p, n)
  }

  /** A process in `phase`, its mailbox holding the Exit messages from `exits` and, while it
      runs, a Stop if the phase says so. */
  predicate Matches(open: bool, stopped: bool, inbox: seq<Mail>, phase: K.Phase, exits: seq<Pid>) {
    && (open <==> phase.Running?)
    && (stopped <==> phase.Dead?)
    && (phase.Running? ==> (phase.told <==> HasStop(inbox)))
    && Exits(inbox) == exits
  }

  /** The process is in its phase of the cascade `n`. */
  ghost predicate HasPhase(p: Process, c: K.Setting, n: K.Net)
    requires K.Shaped(c, n)
    reads p`open, p`stopped, p`inbox
  {
    && p.id in n.phase
    && (p.trapExits <==> p.id in c.trap)
    && Matches(p.open, p.stopped, p.inbox, n.phase[p.id], n.exits[p.id])
  }

  ghost predicate PhasesAre(ps: set<Process>, c: K.Setting, n: K.Net)
    requires K.Shaped(c, n)
    reads ps`open, ps`stopped, ps`inbox
  {
    forall p {:trigger HasPhase(p, c, n)} :: p in ps ==> HasPhase(p, c, n)
  }

  /** What telling a link does to process `z`, whose mailbox it leaves as `inbox'`. */
  lemma NotifiedMatches(c: K.Setting, n: K.Net, x: Pid, y: Pid, wait: K.Wait, z: Pid,
                        open: bool, stopped: bool, inbox: seq<Mail>, inbox': seq<Mail>)
    requires K.Shaped(c, n) && K.Enabled(n, K.Notify(x, y)) && z in n.phase
    requires wait == if y in c.trap then K.Sending(y)
                     else if c.abnormal && n.phase[y].Running? then K.Stopping(y)
                     else K.Nothing
    requires Matches(open, stopped, inbox, n.phase[z], n.exits[z])
    requires inbox' == if z == y && wait.Stopping? then inbox + [StopMail(x)] else inbox
    ensures var n' := K.Notified(c, n, x, y);
            && Matches(open, stopped, inbox', n'.phase[z], n'.exits[z])
            && n'.phase[x].Tearing? && n'.phase[x].wait == wait
  {
    MailPlus(inbox, StopMail(x));
  }

  /** What an Exit getting through does to process `z`. */
  lemma DeliveredMatches(c: K.Setting, n: K.Net, x: Pid, y: Pid, z: Pid,
                         open: bool, stopped: bool, inbox: seq<Mail>, inbox': seq<Mail>)
    requires K.Shaped(c, n) && K.Enabled(n, K.Deliver(x)) && n.phase[x].wait.to == y && z in n.phase
    requires Matches(open, stopped, inbox, n.phase[z], n.exits[z])
    requires inbox' == if z == y && open then inbox + [ExitMail(x)] else inbox
    ensures var n' := K.Delivered(n, x, y); Matches(open, stopped, inbox', n'.phase[z], n'.exits[z])
  {
    MailPlus(inbox, ExitMail(x));
    var n' := K.Delivered(n, x, y);
    assert n'.phase[z] == if z == x then n.phase[x].(wait := K.Nothing) else n.phase[z];
    assert n'.exits[z] == if z == y && n.phase[y].Running? then n.exits[z] + [x] else n.exits[z];
  }

  lemma WatchedRow(w: M.World, a: Pid, b: Pid, ref: Ref, x: Pid)
    requires M.Shaped(w) && a in w.links && b in w.links && x in w.links
    ensures var row, row' := RowOf(w, x), RowOf(M.Watched(w, a, b, ref), x);
            && row'.links == row.links
            && row'.monitors == (if x == a then row.monitors[ref := b] else row.monitors)
            && row'.monitoredBy == (if x == b then row.monitoredBy[ref := a] else row.monitoredBy)
  {
  }

  lemma DroppedIsForgotten(w: M.World, a: Pid, b: Pid, ref: Ref)
    requires M.Shaped(w) && a in w.links && b in w.links && ref in w.monitors[a] && w.monitors[a][ref] == b
    ensures M.Dropped(w, a, {ref}) == M.Forgotten(w, b, a, ref)
  {
    var w1, w2 := M.Dropped(w, a, {ref}), M.Forgotten(w, b, a, ref);
    forall x | x in w.monitoredBy ensures w1.monitoredBy[x] == w2.monitoredBy[x] {
    }
  }

  lemma ForgottenHolds(ps: set<Process>, w: M.World, b: Pid, a: Pid, ref: Ref, x: Pid,
                       links: set<Process>, mons: map<Ref, Process>, who: map<Ref, Process>)
    requires M.Shaped(w) && a in w.links && b in w.links && x in w.links && Holds(ps, RowOf(w, x), links, mons, who)
    ensures Holds(ps, RowOf(M.Forgotten(w, b, a, ref), x),
                  links, if x == a then mons - {ref} else mons, if x == b then who - {ref} else who)
  {
    ForgottenRow(w, b, a, ref, x);
    HoldsRemoved(ps, RowOf(w, x), links, mons, who, ref, x == a, x == b);
  }

  lemma ForgottenRow(w: M.World, b: Pid, a: Pid, ref: Ref, x: Pid)
    requires M.Shaped(w) && a in w.links && b in w.links && x in w.links
    ensures var row, row' := RowOf(w, x), RowOf(M.Forgotten(w, b, a, ref), x);
            && row'.links == row.links
            && row'.monitors == (if x == a then row.monitors - {ref} else row.monitors)
            && row'.monitoredBy == (if x == b then row.monitoredBy - {ref} else row.monitoredBy)
  {
  }

  class Process {
    const id: Pid
    const trapExits: bool
    var links: set<Process>
    var monitors: map<Ref, Process>
    var monitoredBy: map<Ref, Process>
    var ignoredDownRefs: set<Ref>
    var inbox: seq<Mail>
    var open: bool
    var stopped: bool
    var pendingCalls: map<Ref, bool>
    var pendingResults: map<Ref, C.Reply>

    constructor (id: Pid, trapExits: bool)
      ensures this.id == id && this.trapExits == trapExits
      ensures links == {} && monitors == map[] && monitoredBy == map[] && ignoredDownRefs == {}
      ensures inbox == [] && open && !stopped && pendingCalls == map[] && pendingResults == map[]
    {
      this.id, this.trapExits := id, trapExits;
      links, monitors, monitoredBy, ignoredDownRefs := {}, map[], map[], {};
      inbox, open, stopped := [], true, false;
      pendingCalls, pendingResults := map[], map[];
    }

    method Link(other: Process, ghost ps: set<Process>, ghost w: M.World)
      requires this in ps && other in ps && Group(ps, w)
      modifies this`links, other`links
      ensures Group(ps, w.(links := Joined(w.links, id, other.id)))
    {
      links := links + {other};
      other.links := other.links + {this};
      ghost var w' := w.(links := Joined(w.links, id, other.id));
      forall p | p in ps ensures FitsWorld(p, ps, w') {
        assert old(FitsWorld(p, ps, w));
        var row := RowOf(w, p.id);
        HoldsLinked(ps, row, old(p.links), p.monitors, p.monitoredBy, other);
        HoldsLinked(ps, row, old(p.links), p.monitors, p.monitoredBy, this);
      }
    }

    method Unlink(other: Process, ghost ps: set<Process>, ghost w: M.World)
      requires this in ps && other in ps && Group(ps, w)
      modifies this`links, other`links
      ensures Group(ps, w.(links := Parted(w.links, id, other.id)))
    {
      links := links - {other};
      other.links := other.links - {this};
      ghost var w' := w.(links := Parted(w.links, id, other.id));
      forall p | p in ps ensures FitsWorld(p, ps, w') {
        assert old(FitsWorld(p, ps, w));
        var row := RowOf(w, p.id);
        HoldsLinked(ps, row, old(p.links), p.monitors, p.monitoredBy, other);
        HoldsLinked(ps, row, old(p.links), p.monitors, p.monitoredBy, this);
      }
    }

    /** Puts `mail` into the mailbox; a closed one raises, which the callers here log. */
    method Put(mail: Mail)
      modifies `inbox
      ensures inbox == if open then old(inbox) + [mail] else old(inbox)
    {
      if open {
        inbox := inbox + [mail];
      }
    }

    /** `monitor`, with a new ref. */
    method Monitor(other: Process, ref: Ref, ghost ps: set<Process>, ghost w: M.World)
      requires this in ps && other in ps && Group(ps, w)
      modifies this`monitors, this`inbox, other`monitoredBy
      ensures Group(ps, if other.stopped then w else M.Watched(w, id, other.id, ref))
      ensures inbox == if other.stopped && open then old(inbox) + [DownMail(ref)] else old(inbox)
    {
      if other.stopped {
        Put(DownMail(ref));
      } else {
        Enter(other, ref, ps, w);
      }
    }

    method Enter(other: Process, ref: Ref, ghost ps: set<Process>, ghost w: M.World)
      requires this in ps && other in ps && Group(ps, w)
      modifies this`monitors, other`monitoredBy
      ensures Group(ps, M.Watched(w, id, other.id, ref))
    {
      monitors := monitors[ref := other];
      other.monitoredBy := other.monitoredBy[ref := this];
      ghost var w' := M.Watched(w, id, other.id, ref);
      forall p | p in ps ensures FitsWorld(p, ps, w') {
        assert old(FitsWorld(p, ps, w));
        WatchedRow(w, id, other.id, ref, p.id);
        HoldsEntered(ps, RowOf(w, p.id), p.links, old(p.monitors), old(p.monitoredBy), ref, other, p == this,
                     this, p == other);
      }
    }

    /** Takes one monitor out of both tables. */
    method Drop(ref: Ref, ghost ps: set<Process>, ghost w: M.World)
      requires this in ps && Group(ps, w) && ref in monitors
      modifies this`monitors, ps`monitoredBy
      ensures Group(ps, M.Dropped(w, id, {ref})) && monitors == old(monitors) - {ref}
    {
      assert FitsWorld(this, ps, w);
      var other := monitors[ref];
      DroppedIsForgotten(w, id, other.id, ref);
      Forget(other, ref, ps, w);
    }

    /** `other`, monitored under `ref`, and this process both forget it. */
    method Forget(other: Process, ref: Ref, ghost ps: set<Process>, ghost w: M.World)
      requires this in ps && other in ps && Group(ps, w)
      modifies this`monitors, other`monitoredBy
      ensures Group(ps, M.Forgotten(w, other.id, id, ref)) && monitors == old(monitors) - {ref}
    {
      monitors := monitors - {ref};
      other.monitoredBy := other.monitoredBy - {ref};
      assert monitors == old(monitors) - {ref};
      ghost var w' := M.Forgotten(w, other.id, id, ref);
      forall p | p in ps ensures FitsWorld(p, ps, w') {
        assert old(FitsWorld(p, ps, w));
        assert p.monitors == if p.id == id then old(p.monitors) - {ref} else old(p.monitors);
        assert p.monitoredBy == if p.id == other.id then old(p.monitoredBy) - {ref} else old(p.monitoredBy);
        ForgottenHolds(ps, w, other.id, id, ref, p.id, p.links, old(p.monitors), old(p.monitoredBy));
      }
    }

    /** `_monitor_refs` of a process. */
    function MonitorRefs(other: Process): set<Ref>
      reads this
    {
      set ref | ref in monitors && monitors[ref] == other
    }

    /** Part-way through `demonitor`: the refs `done` are dropped and, if they were not
        there, ignored when that is asked for; `rest` are as they were. */
    ghost predicate PartWay(monitors0: set<Ref>, ignored0: set<Ref>, done: set<Ref>, rest: set<Ref>, flush: bool)
      reads this
    {
      && done !! rest
      && (forall r :: r in rest ==> (r in monitors <==> r in monitors0))
      && (forall r :: r in ignoredDownRefs <==> r in ignored0 || (flush && r in done && r !in monitors0))
    }

    /** `demonitor`, over the refs given or found by `MonitorRefs`. */
    method Demonitor(refs: set<Ref>, flush: bool, ghost ps: set<Process>, ghost w: M.World)
      requires this in ps && Group(ps, w)
      modifies this`monitors, this`ignoredDownRefs, ps`monitoredBy
      ensures Group(ps, M.Dropped(w, id, refs))
      ensures forall r ::
        r in ignoredDownRefs <==> r in old(ignoredDownRefs) || (flush && r in refs && r !in old(monitors))
    {
      var rest := refs;
      ghost var done: set<Ref> := {};
      ghost var monitors0, ignored0 := monitors.Keys, ignoredDownRefs;
      DroppedNothing(w, id, {});
      while rest != {}
        invariant M.Shaped(w) && id in w.links
        invariant PartDone(refs, done, rest) && Demonitoring(ps, w, monitors0, ignored0, done, rest, flush)
        decreases |rest|
      {
        var ref :| ref in rest;
        DemonitorOne(ref, flush, ps, w, monitors0, ignored0, done, rest);
        PartDoneOne(refs, done, rest, ref);
        rest, done := rest - {ref}, done + {ref};
      }
      assert done == refs;
    }

    /** The same with the tables of the group. */
    ghost predicate Demonitoring(ps: set<Process>, w: M.World, monitors0: set<Ref>, ignored0: set<Ref>,
                                 done: set<Ref>, rest: set<Ref>, flush: bool)
      requires M.Shaped(w) && id in w.links
      reads this, ps`links, ps`monitors, ps`monitoredBy
    {
      Group(ps, M.Dropped(w, id, done)) && PartWay(monitors0, ignored0, done, rest, flush)
    }

    method DemonitorOne(ref: Ref, flush: bool, ghost ps: set<Process>, ghost w: M.World,
                        ghost monitors0: set<Ref>, ghost ignored0: set<Ref>, ghost done: set<Ref>, ghost rest: set<Ref>)
      requires this in ps && M.Shaped(w) && id in w.links && ref in rest
      requires Demonitoring(ps, w, monitors0, ignored0, done, rest, flush)
      modifies this`monitors, this`ignoredDownRefs, ps`monitoredBy
      ensures Demonitoring(ps, w, monitors0, ignored0, done + {ref}, rest - {ref}, flush)
    {
      DroppedOneMore(w, id, done, ref);
      if ref in monitors {
        Drop(ref, ps, M.Dropped(w, id, done));
      } else {
        NotThere(ref, ps, M.Dropped(w, id, done));
        if flush {
          Ignore(ref, ps, M.Dropped(w, id, done));
        }
      }
    }

    /** `demonitor`, given a process: every monitor on it goes, and none is left to ignore. */
    method DemonitorProcess(other: Process, flush: bool, ghost ps: set<Process>, ghost w: M.World)
      requires this in ps && other in ps && Group(ps, w)
      modifies this`monitors, this`ignoredDownRefs, ps`monitoredBy
      ensures Group(ps, M.Dropped(w, id, M.RefsFor(w, id, other.id))) && ignoredDownRefs == old(ignoredDownRefs)
    {
      assert FitsWorld(this, ps, w);
      assert MonitorRefs(other) == M.RefsFor(w, id, other.id);
      Demonitor(MonitorRefs(other), flush, ps, w);
    }

    method Ignore(ref: Ref, ghost ps: set<Process>, ghost w: M.World)
      requires this in ps && Group(ps, w)
      modifies this`ignoredDownRefs
      ensures Group(ps, w) && ignoredDownRefs == old(ignoredDownRefs) + {ref}
    {
      ignoredDownRefs := ignoredDownRefs + {ref};
    }

    lemma NotThere(ref: Ref, ps: set<Process>, w: M.World)
      requires this in ps && Group(ps, w) && ref !in monitors
      ensures M.Dropped(w, id, {ref}) == w
    {
      assert FitsWorld(this, ps, w);
      DroppedNothing(w, id, {ref});
    }

    /** In the teardown: a listed monitor is forgotten by both sides. */
    method TellMonitor(ref: Ref, watcher: Process, ghost ps: set<Process>, ghost w: M.World)
      requires this in ps && watcher in ps && Group(ps, w)
      modifies this`monitoredBy, watcher`monitors
      ensures Group(ps, M.Forgotten(w, id, watcher.id, ref))
    {
      watcher.Forget(this, ref, ps, w);
    }

    /** The awaited send of its Down gets through, or fails. */
    method DeliverDown(ref: Ref, watcher: Process, ghost ps: set<Process>, ghost n: M.Net)
      requires this in ps && watcher in ps && DifferentIds(ps) && M.Known(n) && MailIs(ps, n)
      modifies watcher`inbox
      ensures watcher.id in n.stage && MailIs(ps, M.Sent(n, watcher.id, ref))
    {
      assert HasMail(watcher, n);
      watcher.Put(DownMail(ref));
      DownsPlus(old(watcher.inbox), DownMail(ref));
      forall p | p in ps ensures HasMail(p, M.Sent(n, watcher.id, ref)) {
        assert old(HasMail(p, n));
      }
    }

    /** The loop takes a Down from its mailbox: to be ignored, once, or `seen` by `handle_down`. */
    method HandleDown(ghost ps: set<Process>, ghost n: M.Net) returns (seen: bool)
      requires this in ps && DifferentIds(ps) && M.Known(n) && MailIs(ps, n) && open
      requires inbox != [] && inbox[0].DownMail?
      requires id in n.ignored && n.ignored[id] == ignoredDownRefs
      modifies this`inbox, this`ignoredDownRefs
      ensures old(inbox) == [DownMail(old(inbox)[0].ref)] + inbox
      ensures seen <==> old(inbox)[0].ref !in old(ignoredDownRefs)
      ensures ignoredDownRefs == old(ignoredDownRefs) - {old(inbox)[0].ref}
      ensures M.Enabled(n, M.HandleDown(id))
      ensures var n' := M.Handled(n, id); MailIs(ps, n') && n'.ignored[id] == ignoredDownRefs
    {
      assert HasMail(this, n);
      var ref := inbox[0].ref;
      DownsHead(ref, inbox[1..]);
      assert inbox == [DownMail(ref)] + inbox[1..];
      inbox := inbox[1..];
      seen := ref !in ignoredDownRefs;
      ignoredDownRefs := ignoredDownRefs - {ref};
      assert M.Enabled(n, M.HandleDown(id)) && n.mail[id] == [ref] + Downs(inbox);
      ghost var n' := M.Handled(n, id);
      assert n'.stage == n.stage && n'.mail == n.mail[id := Downs(inbox)];
      assert n'.ignored[id] == ignoredDownRefs;
      forall p | p in ps ensures HasMail(p, n') {
        assert old(HasMail(p, n));
      }
    }

    /** In the teardown: a listed link is cut; then the sending of Exit begins, or Stop is
        put into the mailbox if the reason is abnormal. `wait` is what the teardown waits for. */
    method TellLink(other: Process, abnormal: bool, ghost ps: set<Process>, ghost w: M.World, ghost c: K.Setting,
                    ghost n: K.Net)
      returns (wait: K.Wait)
      requires this in ps && other in ps && Group(ps, w) && w.links == n.links
      requires K.Shaped(c, n) && PhasesAre(ps, c, n) && abnormal == c.abnormal
      requires K.Enabled(n, K.Notify(id, other.id))
      modifies this`links, other`links, other`inbox
      ensures var n' := K.Notified(c, n, id, other.id);
              && Group(ps, w.(links := n'.links))
              && PhasesAre(ps, c, n')
              && n'.phase[id].Tearing? && wait == n'.phase[id].wait
    {
      assert K.Notified(c, n, id, other.id).links == Parted(w.links, id, other.id);
      Unlink(other, ps, w);
      wait := Warn(other, abnormal, ps, c, n);
    }

    method Warn(other: Process, abnormal: bool, ghost ps: set<Process>, ghost c: K.Setting, ghost n: K.Net)
      returns (wait: K.Wait)
      requires this in ps && other in ps && DifferentIds(ps)
      requires K.Shaped(c, n) && PhasesAre(ps, c, n) && abnormal == c.abnormal
      requires K.Enabled(n, K.Notify(id, other.id))
      modifies other`inbox
      ensures var n' := K.Notified(c, n, id, other.id);
              PhasesAre(ps, c, n') && n'.phase[id].Tearing? && wait == n'.phase[id].wait
    {
      assert HasPhase(this, c, n) && HasPhase(other, c, n);
      wait := K.Nothing;
      if other.trapExits {
        wait := K.Sending(other.id);
      } else if abnormal && !other.stopped {
        other.Put(StopMail(id));
        if other.open {
          wait := K.Stopping(other.id);
        }
      }
      assert other.inbox == if wait.Stopping? then old(other.inbox) + [StopMail(id)] else old(other.inbox);
      forall p | p in ps ensures HasPhase(p, c, K.Notified(c, n, id, other.id)) {
        assert old(HasPhase(p, c, n));
        NotifiedMatches(c, n, id, other.id, wait, p.id, p.open, p.stopped, old(p.inbox), p.inbox);
      }
      assert HasPhase(this, c, K.Notified(c, n, id, other.id));
      NotifiedMatches(c, n, id, other.id, wait, id, open, stopped, old(inbox), inbox);
    }

    /** The awaited send of Exit gets through, or fails. */
    method DeliverExit(other: Process, ghost ps: set<Process>, ghost c: K.Setting, ghost n: K.Net)
      requires this in ps && other in ps && DifferentIds(ps) && K.Shaped(c, n) && PhasesAre(ps, c, n)
      requires K.Enabled(n, K.Deliver(id)) && n.phase[id].wait.to == other.id
      modifies other`inbox
      ensures PhasesAre(ps, c, K.Delivered(n, id, other.id))
    {
      assert HasPhase(other, c, n);
      other.Put(ExitMail(id));
      forall p | p in ps ensures HasPhase(p, c, K.Delivered(n, id, other.id)) {
        assert old(HasPhase(p, c, n));
        DeliveredMatches(c, n, id, other.id, p.id, p.open, p.stopped, old(p.inbox), p.inbox);
      }
    }

    /** At the end of the teardown: all monitors held are given up. */
    method ReleaseMonitors(ghost ps: set<Process>, ghost w: M.World)
      requires this in ps && Group(ps, w)
      modifies this`monitors, this`ignoredDownRefs, ps`monitoredBy
      ensures Group(ps, M.Dropped(w, id, w.monitors[id].Keys)) && ignoredDownRefs == old(ignoredDownRefs)
    {
      assert FitsWorld(this, ps, w);
      assert monitors.Keys == w.monitors[id].Keys;
      Demonitor(monitors.Keys, false, ps, w);
    }

    // The tables of pending calls.

    /** A call enters its event; its message goes to the target's mailbox, or the target is
        gone and the call fails. */
    method BeginCall(ref: Ref, target: Process, ghost c: C.Caller) returns (sent: bool)
      requires c.calls == pendingCalls && c.results == pendingResults && ref !in c.used
      modifies this`pendingCalls, this`pendingResults, target`inbox
      ensures sent == target.open
      ensures var c' := C.Next(c, C.Begin(ref, sent)); pendingCalls == c'.calls && pendingResults == c'.results
      ensures target.inbox == if sent then old(target.inbox) + [OtherMail] else old(target.inbox)
      ensures sent ==> pendingCalls == old(pendingCalls)[ref := false] && pendingResults == old(pendingResults)
      ensures !sent ==> pendingCalls == old(pendingCalls) - {ref} && pendingResults == old(pendingResults) - {ref}
    {
      pendingCalls := pendingCalls[ref := false];
      sent := target.open;
      target.Put(OtherMail);
      if !sent {
        ClearCall(ref);
      }
    }

    method ClearCall(ref: Ref)
      modifies this`pendingCalls, this`pendingResults
      ensures pendingCalls == old(pendingCalls) - {ref} && pendingResults == old(pendingResults) - {ref}
    {
      pendingCalls := pendingCalls - {ref};
      pendingResults := pendingResults - {ref};
    }

    /** `_deliver_reply` */
    method DeliverReply(ref: Ref, result: C.Reply, ghost c: C.Caller)
      requires c.calls == pendingCalls && c.results == pendingResults
      modifies this`pendingCalls, this`pendingResults
      ensures var c' := C.Next(c, C.Deliver(ref, result)); pendingCalls == c'.calls && pendingResults == c'.results
      ensures ref in old(pendingCalls) ==>
                pendingCalls == old(pendingCalls)[ref := true] && pendingResults == old(pendingResults)[ref := result]
      ensures ref !in old(pendingCalls) ==>
                pendingCalls == old(pendingCalls) && pendingResults == old(pendingResults)
    {
      if ref in pendingCalls {
        pendingResults := pendingResults[ref := result];
        pendingCalls := pendingCalls[ref := true];
      }
    }

    /** A call whose event is set takes its result. */
    method FinishCall(ref: Ref, ghost c: C.Caller) returns (result: Option<C.Reply>)
      requires c.calls == pendingCalls && c.results == pendingResults && C.Enabled(c, C.Wake(ref))
      modifies this`pendingCalls, this`pendingResults
      ensures var c' := C.Next(c, C.Wake(ref));
              pendingCalls == c'.calls && pendingResults == c'.results && c'.returned[ref] == result
      ensures pendingCalls == old(pendingCalls) - {ref} && pendingResults == old(pendingResults) - {ref}
      ensures result == if ref in old(pendingResults) then Some(old(pendingResults)[ref]) else None
    {
      result := None;
      if ref in pendingResults {
        result := Some(pendingResults[ref]);
        pendingResults := pendingResults - {ref};
      }
      ClearCall(ref);
    }
  }
}
