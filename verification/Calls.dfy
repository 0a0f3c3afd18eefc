/** Calls and their replies: the tables that all calls of one process share. */
module Calls {
  import opened Identifiers
  import opened Wrappers

  type Reply(==, !new)

  /** The caller's `_pending_calls` (is the event set?) and `_pending_results`; and history:
      the refs used, the calls still waiting, the last reply delivered for each ref while its
      call waited, and what each finished call returned, if anything. */
  datatype Caller = Caller(
    calls: map<Ref, bool>,
    results: map<Ref, Reply>,
    used: set<Ref>,
    waiting: set<Ref>,
    latest: map<Ref, Reply>,
    returned: map<Ref, Option<Reply>>)

  /** A call enters its event and sends its message, or finds the mailbox closed and fails; a
      reply arrives, for any ref whatever; a call whose event is set goes on; a call is given
      up on time-out or cancellation. */
  datatype Step =
    | Begin(ref: Ref, sent: bool)
    | Deliver(ref: Ref, reply: Reply)
    | Wake(ref: Ref)
    | GiveUp(ref: Ref)

  const IDLE: Caller := Caller(map[], map[], {}, {}, map[], map[])

  predicate Enabled(c: Caller, step: Step) {
    match step
    case Begin(ref, _) => ref !in c.used
    case Deliver(_, _) => true
    case Wake(ref) => ref in c.waiting && ref in c.calls && c.calls[ref]
    case GiveUp(ref) => ref in c.waiting
  }

  /** The `finally` of a call. */
  function Cleared(c: Caller, ref: Ref): Caller {
    c.(calls := c.calls - {ref}, results := c.results - {ref}, waiting := c.waiting - {ref})
  }

  function Popped(c: Caller, ref: Ref): Option<Reply> {
    if ref in c.results then Some(c.results[ref]) else None
  }

  function Delivered(c: Caller, ref: Ref, reply: Reply): Caller {
    if ref !in c.calls then c
    else c.(results := c.results[ref := reply], calls := c.calls[ref := true], latest := c.latest[ref := reply])
  }

  function Next(c: Caller, step: Step): Caller {
    if !Enabled(c, step) then c
    else
      match step
      case Begin(ref, sent) =>
        var c1 := c.(calls := c.calls[ref := false], used := c.used + {ref}, waiting := c.waiting + {ref});
        if sent then c1 else Cleared(c1, ref).(returned := c.returned[ref := None])
      case Deliver(ref, reply) => Delivered(c, ref, reply)
      case Wake(ref) => Cleared(c, ref).(returned := c.returned[ref := Popped(c, ref)])
      case GiveUp(ref) => Cleared(c, ref).(returned := c.returned[ref := None])
  }

  function Run(c: Caller, steps: seq<Step>): Caller
    decreases |steps|
  {
    if steps == [] then c else Run(Next(c, steps[0]), steps[1..])
  }

  /** A waiting call's entries: the event is set exactly when a result is stored, and that
      is the latest reply. */
  ghost predicate RefOk(c: Caller, ref: Ref) {
    && (ref in c.calls <==> ref in c.waiting)
    && (ref in c.waiting ==> ref in c.used)
    && (ref in c.results ==> ref in c.calls)
    && (ref in c.calls ==> (c.calls[ref] <==> ref in c.results))
    && (ref in c.results ==> ref in c.latest && c.latest[ref] == c.results[ref])
    && (ref in c.calls && ref !in c.results ==> ref !in c.latest)
    && (ref !in c.used ==> ref !in c.latest && ref !in c.returned)
    && (ref in c.returned ==> ref in c.used && ref !in c.waiting)
    && (ref in c.used && ref !in c.waiting ==> ref in c.returned)
    && (ref in c.returned && c.returned[ref].Some? ==> ref in c.latest && c.returned[ref].value == c.latest[ref])
  }

  ghost predicate Inv(c: Caller) {
    forall ref :: RefOk(c, ref)
  }

  lemma NextOk(c: Caller, step: Step)
    requires Inv(c)
    ensures Inv(Next(c, step))
  {
    forall ref ensures RefOk(Next(c, step), ref) {
      assert RefOk(c, ref);
    }
  }

  lemma {:induction false} RunOk(c: Caller, steps: seq<Step>)
    requires Inv(c)
    ensures Inv(Run(c, steps))
    decreases |steps|
  {
    if steps != [] {
      NextOk(c, steps[0]);
      RunOk(Next(c, steps[0]), steps[1..]);
    }
  }

  // ---------------------------------------------------------------------
  // The tables against the list of steps
  // ---------------------------------------------------------------------

  /** The life of one call, by itself: not made, waiting, with a reply at hand, or over with
      what it returned, if anything. */
  datatype Status = Unused | Waiting | Replied(reply: Reply) | Over(result: Option<Reply>)

  /** What a step means for the call of `ref`, without looking at any table: of several replies
      the last one counts, and only one that arrives while the call waits; a call that fails or
      is given up returns nothing. */
  function StatusAfter(status: Status, step: Step, ref: Ref): Status {
    if step.ref != ref then status
    else
      match (step, status)
      case (Begin(_, sent), Unused) => if sent then Waiting else Over(None)
      case (Deliver(_, reply), Waiting) => Replied(reply)
      case (Deliver(_, reply), Replied(_)) => Replied(reply)
      case (Wake(_), Replied(reply)) => Over(Some(reply))
      case (GiveUp(_), Waiting) => Over(None)
      case (GiveUp(_), Replied(_)) => Over(None)
      case _ => status
  }

  function StatusOf(status: Status, steps: seq<Step>, ref: Ref): Status
    decreases |steps|
  {
    if steps == [] then status else StatusOf(StatusAfter(status, steps[0], ref), steps[1..], ref)
  }

  /** The tables say of `ref` what its status says. */
  ghost predicate Shows(c: Caller, ref: Ref, status: Status) {
    && (ref in c.used <==> !status.Unused?)
    && (ref in c.waiting <==> status.Waiting? || status.Replied?)
    && (ref in c.calls <==> status.Waiting? || status.Replied?)
    && (ref in c.calls ==> (c.calls[ref] <==> status.Replied?))
    && (ref in c.results <==> status.Replied?)
    && (status.Replied? ==> c.results[ref] == status.reply)
    && (ref in c.returned <==> status.Over?)
    && (status.Over? ==> c.returned[ref] == status.result)
  }

  lemma NextShows(c: Caller, step: Step, ref: Ref, status: Status)
    requires Shows(c, ref, status)
    ensures Shows(Next(c, step), ref, StatusAfter(status, step, ref))
  {
  }

  lemma {:induction false} RunShows(c: Caller, steps: seq<Step>, ref: Ref, status: Status)
    requires Shows(c, ref, status)
    ensures Shows(Run(c, steps), ref, StatusOf(status, steps, ref))
    decreases |steps|
  {
    if steps != [] {
      NextShows(c, steps[0], ref, status);
      RunShows(Next(c, steps[0]), steps[1..], ref, StatusAfter(status, steps[0], ref));
    }
  }

  /** By the steps about its own ref alone the call was sent, and has neither gone on nor
      been given up. */
  predicate Open(steps: seq<Step>, ref: Ref) {
    var status := StatusOf(Unused, steps, ref);
    status.Waiting? || status.Replied?
  }

  /** With any number of calls overlapping and any replies at all, late ones and duplicates
      included: entries are those of the open calls, so that a call whose target was gone
      leaves none; an event is set and a result stored exactly once a reply to an open call
      came; and once no call is open both tables are empty. */
  lemma TablesMatch(steps: seq<Step>)
    ensures var c := Run(IDLE, steps);
            && c.results.Keys <= c.calls.Keys == c.waiting
            && (forall ref :: ref in c.calls <==> Open(steps, ref))
            && (forall ref :: ref in c.calls ==> (c.calls[ref] <==> StatusOf(Unused, steps, ref).Replied?))
            && (forall ref :: ref in c.results <==> StatusOf(Unused, steps, ref).Replied?)
            && ((forall ref :: !Open(steps, ref)) ==> c.calls == map[] && c.results == map[])
  {
    var c := Run(IDLE, steps);
    forall ref ensures Shows(c, ref, StatusOf(Unused, steps, ref)) {
      RunShows(IDLE, steps, ref, Unused);
    }
    forall ref
      ensures ref in c.calls <==> Open(steps, ref)
      ensures ref in c.calls <==> ref in c.waiting
      ensures ref in c.results <==> StatusOf(Unused, steps, ref).Replied?
      ensures ref in c.calls ==> (c.calls[ref] <==> StatusOf(Unused, steps, ref).Replied?)
    {
      assert Shows(c, ref, StatusOf(Unused, steps, ref));
    }
  }

  /** Every call that is over returned what the steps about its own ref say: the last reply
      that came while it waited, or nothing if it failed or was given up. */
  lemma ReturnsWhatItsStepsSay(steps: seq<Step>, ref: Ref)
    ensures var c, status := Run(IDLE, steps), StatusOf(Unused, steps, ref);
            && (ref in c.returned <==> status.Over?)
            && (status.Over? ==> c.returned[ref] == status.result)
            && (status.Replied? ==> ref in c.results && c.results[ref] == status.reply)
  {
    RunShows(IDLE, steps, ref, Unused);
  }

  // ---------------------------------------------------------------------
  // Results
  // ---------------------------------------------------------------------

  /** The replies delivered for `ref` while its call waited, in order. */
  function RepliesTo(c: Caller, steps: seq<Step>, ref: Ref): seq<Reply>
    decreases |steps|
  {
    if steps == [] then []
    else if steps[0].Deliver? && steps[0].ref == ref && ref in c.waiting then
      [steps[0].reply] + RepliesTo(Next(c, steps[0]), steps[1..], ref)
    else RepliesTo(Next(c, steps[0]), steps[1..], ref)
  }

  lemma {:induction false} LatestReply(c: Caller, steps: seq<Step>, ref: Ref)
    requires Inv(c)
    ensures var replies := RepliesTo(c, steps, ref);
            var c' := Run(c, steps);
            if replies == [] then (ref in c'.latest <==> ref in c.latest)
              && (ref in c.latest ==> c'.latest[ref] == c.latest[ref])
            else ref in c'.latest && c'.latest[ref] == replies[|replies| - 1]
    decreases |steps|
  {
    if steps != [] {
      assert RefOk(c, ref);
      NextOk(c, steps[0]);
      LatestReply(Next(c, steps[0]), steps[1..], ref);
    }
  }

  /** A call that goes on returns the last of the replies delivered for its own ref before,
      and there is one; whatever arrives later changes nothing. */
  lemma ReturnsOwnReply(before: seq<Step>, after: seq<Step>, ref: Ref)
    requires Enabled(Run(IDLE, before), Wake(ref))
    ensures var replies := RepliesTo(IDLE, before, ref);
            var c := Run(Next(Run(IDLE, before), Wake(ref)), after);
            && replies != []
            && ref in c.returned && c.returned[ref] == Some(replies[|replies| - 1])
            && ref !in c.calls && ref !in c.results
  {
    var c := Run(IDLE, before);
    RunOk(IDLE, before);
    LatestReply(IDLE, before, ref);
    assert RefOk(c, ref);
    NextOk(c, Wake(ref));
    FinishedStays(Next(c, Wake(ref)), after, ref);
  }

  lemma {:induction false} FinishedStays(c: Caller, steps: seq<Step>, ref: Ref)
    requires Inv(c) && ref in c.returned
    ensures var c' := Run(c, steps);
            ref in c'.returned && c'.returned[ref] == c.returned[ref] && ref !in c'.calls && ref !in c'.results
    decreases |steps|
  {
    assert RefOk(c, ref);
    if steps != [] {
      NextOk(c, steps[0]);
      FinishedStays(Next(c, steps[0]), steps[1..], ref);
    }
  }
}
