/**
 Logs on which turns keep to themselves: the course such a log takes, line by
 line, and how the tracker follows it.
 */
module Courses {
  import opened Records
  import opened OrderedMaps
  import opened Turns
  import opened TurnHistory

  /** The lines a record leaves in the events log: a tool call leaves none. */
  function LineOf(rec: Record): seq<SessionEvent> {
    match rec
    case SubmitSeen(submit, _, _) => [Submit(submit)]
    case StopSeen(stop, _) => [Stop(stop)]
    case FailureSeen(failure, _) => [Failure(failure)]
    case _ => []
  }

  function LogOf(recs: seq<Record>): seq<SessionEvent> {
    if recs == [] then [] else LogOf(recs[..|recs| - 1]) + LineOf(recs[|recs| - 1])
  }

  // Well-formed logs.

  /** What Claude Code is at: no turn, messages being taken together, or a turn that runs. */
  datatype Phase =
    | Idle
    | Batch(id: PromptId, begunAtMs: nat, lastAtMs: nat)
    | Running(id: PromptId, begunAtMs: nat)
  {
    /** Nothing more is taken with the messages taken so far. */
    function Closed(): Phase {
      if Batch? then Running(id, begunAtMs) else this
    }
  }

  /**
   `used`: every prompt id seen; `names`: for each id that a later message of
   its batch took the place of, the id its turn goes by since; `taken`: the
   id each message came under.
   */
  datatype Course = Course(
    phase: Phase,
    followed: bool,
    used: set<PromptId>,
    names: map<PromptId, PromptId>,
    taken: map<RequestId, PromptId>)
  {
    /** `id` is the running turn's, or, between turns, a new one. */
    predicate Fits(id: PromptId) {
      if phase.Idle? then id !in used else id == phase.id
    }

    function Uses(id: PromptId): Course {
      this.(used := used + {id}, followed := true)
    }

    /** The id that the turn of `id` goes by now. */
    function Final(id: PromptId): PromptId {
      if id in names then names[id] else id
    }

    /** `to` takes the place of `from`, and of what `from` took the place of. */
    function Renamed(from: PromptId, to: PromptId): map<PromptId, PromptId> {
      (map k | k in names :: if names[k] == from then to else names[k])[from := to]
    }
  }

  /**
   A message is taken: it begins a turn, is folded into the running one, or,
   soon after the one before, is taken with it under a new id.
   */
  function TakeMessage(c: Course, id: PromptId, r: RequestId, atMs: nat): Option<Course> {
    var n := c.Uses(id).(taken := c.taken[r := id]);
    if r in c.taken then None
    else
      match c.phase
      case Idle => if id in c.used then None else Some(n.(phase := Batch(id, atMs, atMs)))
      case Batch(last, begun, lastAt) =>
        if id == last then
          Some(n.(phase := if atMs <= lastAt + CHANNEL_BATCH_MS then Batch(id, begun, atMs) else Running(id, begun)))
        else if id in c.used || atMs > lastAt + CHANNEL_BATCH_MS then None
        else Some(n.(phase := Batch(id, begun, atMs), names := c.Renamed(last, id)))
      case Running(running, _) => if id == running then Some(n) else None
  }

  /** A typed submit, or a tool call: of the running turn, or the first of a new one. */
  function TakeOther(c: Course, id: PromptId, atMs: nat): Option<Course> {
    if !c.Fits(id) then None
    else Some(c.Uses(id).(phase := if c.phase.Idle? then Running(id, atMs) else c.phase.Closed()))
  }

  /**
   A Stop or failure: the running turn's own, later than the turn began, or,
   between turns, of one nothing announced.
   */
  function TakeEnd(c: Course, id: Option<PromptId>, atMs: nat): Option<Course> {
    if !c.followed then Some(c)
    else if id.None? then Some(c.(phase := c.phase.Closed()))
    else if !c.Fits(id.value) || (!c.phase.Idle? && atMs <= c.phase.begunAtMs) then None
    else Some(c.Uses(id.value).(phase := Idle))
  }

  /** How a record continues a well-formed course; `None` when it does not. */
  function Advance(c: Course, rec: Record): Option<Course> {
    match rec
    case SubmitSeen(submit, _, _) =>
      if submit.promptId.None? then
        if submit.requestId.Some? then None else Some(c.(phase := c.phase.Closed()))
      else if submit.requestId.Some? then TakeMessage(c, submit.promptId.value, submit.requestId.value, submit.atMs)
      else TakeOther(c, submit.promptId.value, submit.atMs)
    case ActivitySeen(activity, _) =>
      if activity.promptId.None? || !c.followed then Some(c) else TakeOther(c, activity.promptId.value, activity.atMs)
    case StopSeen(stop, _) => TakeEnd(c, stop.promptId, stop.atMs)
    case FailureSeen(failure, _) => TakeEnd(c, failure.promptId, failure.atMs)
    case Forgotten(_) => Some(c)
  }

  function CourseOf(binding: bool, recs: seq<Record>): Option<Course> {
    if recs == [] then Some(Course(Idle, binding, {}, map[], map[]))
    else
      var c := CourseOf(binding, recs[..|recs| - 1]);
      if c.Some? then Advance(c.value, recs[|recs| - 1]) else None
  }

  /** The server's own part: a request in `opens` was open whenever its submit came, and was not forgotten. */
  predicate StaysOpen(rec: Record, opens: set<RequestId>) {
    && (rec.SubmitSeen? && rec.submit.requestId.Some? && rec.submit.requestId.value in opens ==> rec.isOpen)
    && (rec.Forgotten? ==> rec.requestId !in opens)
  }

  /** What every course keeps: names are used ones and flat, and the running turn's id stands for itself. */
  ghost predicate Named(c: Course) {
    && (!c.followed ==> c.phase.Idle?)
    && (forall id <- c.names :: id in c.used && c.names[id] in c.used && c.names[id] !in c.names)
    && (!c.phase.Idle? ==> c.phase.id in c.used && c.phase.id !in c.names)
    && (forall r <- c.taken :: c.taken[r] in c.used)
  }

  lemma RenamedNamed(c: Course, id: PromptId, phase: Phase)
    requires Named(c) && c.phase.Batch? && id !in c.used && phase.Batch? && phase.id == id
    ensures Named(c.Uses(id).(names := c.Renamed(c.phase.id, id), phase := phase))
  {
    var n := c.Uses(id).(names := c.Renamed(c.phase.id, id), phase := phase);
    forall k <- n.names ensures k in n.used && n.names[k] in n.used && n.names[k] !in n.names {
      if k != c.phase.id {
        assert n.names[k] == if c.names[k] == c.phase.id then id else c.names[k];
      }
    }
  }

  lemma TakenNamed(c: Course, r: RequestId, id: PromptId)
    requires Named(c) && id in c.used
    ensures Named(c.(taken := c.taken[r := id]))
  {}

  lemma PhaseNamed(c: Course, id: PromptId, phase: Phase)
    requires Named(c) && (phase.Idle? || phase.id == id) && id !in c.names
    ensures Named(c.Uses(id).(phase := phase))
  {}

  lemma MessageNamed(c: Course, id: PromptId, r: RequestId, atMs: nat)
    requires Named(c) && TakeMessage(c, id, r, atMs).Some?
    ensures Named(TakeMessage(c, id, r, atMs).value)
  {
    var n := TakeMessage(c, id, r, atMs).value;
    assert c.phase.Idle? ==> id !in c.names;
    if c.phase.Batch? && id != c.phase.id {
      RenamedNamed(c, id, n.phase);
    } else {
      PhaseNamed(c, id, n.phase);
    }
    hide Named;
    TakenNamed(n.(taken := c.taken), r, id);
  }

  lemma AdvanceNamed(c: Course, rec: Record)
    requires Named(c) && Advance(c, rec).Some?
    ensures Named(Advance(c, rec).value)
  {
    if rec.SubmitSeen? && rec.submit.promptId.Some? && rec.submit.requestId.Some? {
      MessageNamed(c, rec.submit.promptId.value, rec.submit.requestId.value, rec.submit.atMs);
      hide Named, TakeMessage;
    }
  }

  lemma FinalIsUsed(c: Course, id: PromptId)
    requires Named(c) && id in c.used
    ensures c.Final(id) in c.used && c.Final(id) !in c.names
  {}

  /** What a new name changes: the ids that went by the old one go by the new one. */
  lemma FinalRenamed(c: Course, n: Course, from: PromptId, to: PromptId, id: PromptId)
    requires Named(c) && n.names == c.Renamed(from, to) && to !in c.used && from !in c.names && id in c.used
    ensures n.Final(id) == if c.Final(id) == from then to else c.Final(id)
  {}

  // The tracker follows the course.

  ghost predicate AtPhase(t: Tracker, p: Phase) {
    match p
    case Idle => t.current.None?
    case Batch(id, begun, lastAt) =>
      t.IsCurrent(id) && t.current.value.turn.startedAtMs <= begun
      && t.current.value.batchUntilMs == Some(lastAt + CHANNEL_BATCH_MS)
    case Running(id, begun) => t.IsCurrent(id) && t.current.value.turn.startedAtMs <= begun
  }

  /** The tracker knows no id that was not used, and its aliases are names of the course. */
  ghost predicate NamesUsed(t: Tracker, c: Course) {
    && (forall id <- t.ended.vals :: id in c.used)
    && (forall id <- t.alias.vals :: id in c.names && t.alias.vals[id] == c.names[id])
    && (forall r <- t.bound :: r in c.taken)
    && (forall r <- t.CurrentRequests() :: r in c.taken)
  }

  /** Each request in `opens` that was taken is bound to the id that its message's id goes by. */
  ghost predicate BoundAs(bound: map<RequestId, PromptId>, c: Course, opens: set<RequestId>) {
    forall r <- opens :: (r in c.taken <==> r in bound) && (r in bound ==> bound[r] == c.Final(c.taken[r]))
  }

  /** While messages are taken together, the turn's requests are those bound to it. */
  ghost predicate BatchBound(t: Tracker, c: Course, opens: set<RequestId>) {
    c.phase.Batch? ==> forall r <- opens :: r in t.CurrentRequests() <==> r in t.bound && t.bound[r] == c.phase.id
  }

  ghost predicate OnCourse(t: Tracker, c: Course, opens: set<RequestId>) {
    && t.binding == c.followed && AtPhase(t, c.phase)
    && NamesUsed(t, c) && BoundAs(t.bound, c, opens) && BatchBound(t, c, opens)
  }

  /** A tracker that entered the message's turn, its batch extended, before the message is bound. */
  function Entered(t: Tracker, id: PromptId, at: nat, session: Option<string>): Tracker {
    var x := Enter(t, id, at, session).state;
    x.(current := Some(Extended(x.current.value, at)))
  }

  lemma EnteredAnew(t: Tracker, c: Course, opens: set<RequestId>, id: PromptId, at: nat, session: Option<string>)
    requires Named(c) && OnCourse(t, c, opens) && c.followed && c.phase.Idle? && id !in c.used
    ensures OnCourse(Entered(t, id, at, session), c.Uses(id).(phase := Batch(id, at, at)), opens)
  {
    var x, n := Entered(t, id, at, session), c.Uses(id).(phase := Batch(id, at, at));
    assert x.bound == t.bound && x.alias == t.alias && x.CurrentRequests() == [];
    assert AtPhase(x, n.phase) && NamesUsed(x, n);
    hide Entered, NamesUsed, AtPhase;
    forall r <- opens ensures r in x.bound ==> x.bound[r] != id {
      if r in c.taken {
        FinalIsUsed(c, c.taken[r]);
      }
    }
  }

  lemma EnteredAgain(t: Tracker, c: Course, opens: set<RequestId>, at: nat, session: Option<string>, phase: Phase)
    requires Named(c) && OnCourse(t, c, opens) && !c.phase.Idle?
    requires phase == c.phase.Closed() || (c.phase.Batch? && phase == Batch(c.phase.id, c.phase.begunAtMs, at))
    ensures OnCourse(Entered(t, c.phase.id, at, session), c.Uses(c.phase.id).(phase := phase), opens)
  {}

  lemma RenamedInBatch(t: Tracker, id: PromptId, at: nat, session: Option<string>)
    requires t.current.Some? && !t.IsCurrent(id)
    requires t.current.value.batchUntilMs.Some? && at <= t.current.value.batchUntilMs.value
    ensures var x := Entered(t, id, at, session);
            var requests, from := t.CurrentRequests(), t.current.value.turn.promptId;
            && x == t.(current := x.current, alias := x.alias, bound := x.bound)
            && x.IsCurrent(id) && x.CurrentRequests() == requests
            && x.current.value.turn.startedAtMs == t.current.value.turn.startedAtMs
            && x.current.value.batchUntilMs == Some(at + CHANNEL_BATCH_MS)
            && (forall a <- x.alias.vals ::
                  if a == from then x.alias.vals[a] == id
                  else a in t.alias.vals && x.alias.vals[a] == if t.alias.vals[a] == from then id else t.alias.vals[a])
            && x.bound.Keys == t.bound.Keys + (set r | r in requests)
            && (forall r <- x.bound :: x.bound[r] == if r in requests then id else t.bound[r])
  {
    assert Enter(t, id, at, session) == Rename(t, id);
    hide Enter;
  }

  lemma EnteredRenamed(t: Tracker, c: Course, opens: set<RequestId>, id: PromptId, at: nat, session: Option<string>)
    requires Named(c) && OnCourse(t, c, opens) && c.followed && c.phase.Batch?
    requires id !in c.used && at <= c.phase.lastAtMs + CHANNEL_BATCH_MS
    ensures var n := c.Uses(id).(names := c.Renamed(c.phase.id, id), phase := Batch(id, c.phase.begunAtMs, at));
            OnCourse(Entered(t, id, at, session), n, opens)
  {
    RenamedInBatch(t, id, at, session);
    var n := c.Uses(id).(names := c.Renamed(c.phase.id, id), phase := Batch(id, c.phase.begunAtMs, at));
    var x := Entered(t, id, at, session);
    assert t.current.value.turn.promptId == c.phase.id;
    hide Entered, Named, NamesUsed, BoundAs, BatchBound;
    RenamedNames(t, x, c, n);
    RenamedBindings(t, x, c, n, opens);
  }

  lemma RenamedNames(t: Tracker, x: Tracker, c: Course, n: Course)
    requires NamesUsed(t, c) && c.phase.Batch? && n.phase.Batch? && n.taken == c.taken && x.ended == t.ended
    requires c.used <= n.used && n.names == c.Renamed(c.phase.id, n.phase.id)
    requires x.CurrentRequests() == t.CurrentRequests()
    requires x.bound.Keys == t.bound.Keys + (set r | r in t.CurrentRequests())
    requires forall a <- x.alias.vals ::
               if a == c.phase.id then x.alias.vals[a] == n.phase.id
               else && a in t.alias.vals
                    && x.alias.vals[a] == if t.alias.vals[a] == c.phase.id then n.phase.id else t.alias.vals[a]
    ensures NamesUsed(x, n)
  {}

  lemma RenamedBindings(t: Tracker, x: Tracker, c: Course, n: Course, opens: set<RequestId>)
    requires Named(c) && BoundAs(t.bound, c, opens) && BatchBound(t, c, opens) && c.phase.Batch? && n.phase.Batch?
    requires n.taken == c.taken && n.names == c.Renamed(c.phase.id, n.phase.id) && n.phase.id !in c.used
    requires x.CurrentRequests() == t.CurrentRequests()
    requires x.bound.Keys == t.bound.Keys + (set r | r in t.CurrentRequests())
    requires forall r <- x.bound :: x.bound[r] == if r in t.CurrentRequests() then n.phase.id else t.bound[r]
    ensures BoundAs(x.bound, n, opens) && BatchBound(x, n, opens)
  {
    assert forall r <- c.taken :: c.taken[r] in c.used;
    assert c.phase.id !in c.names;
    hide Named;
    forall r <- opens
      ensures (r in n.taken <==> r in x.bound) && (r in x.bound ==> x.bound[r] == n.Final(n.taken[r]))
      ensures r in x.CurrentRequests() <==> r in x.bound && x.bound[r] == n.phase.id {
      assert r in x.bound <==> r in t.bound || r in t.CurrentRequests();
        if r in t.bound {
        FinalIsUsed(c, c.taken[r]);
        FinalRenamed(c, n, c.phase.id, n.phase.id, c.taken[r]);
      }
    }
  }

  /** A message bound to the turn it entered, if it is open. */
  lemma BoundOnCourse(x: Tracker, m: Course, opens: set<RequestId>, r: RequestId, id: PromptId,
                      at: nat, session: Option<string>, binds: bool)
    requires OnCourse(x, m, opens) && r !in m.taken && (r in opens ==> binds)
    requires !m.phase.Idle? && m.phase.id == id && id !in m.names
    ensures OnCourse(if binds then Join(x, r, id, at, session).state else x, m.(taken := m.taken[r := id]), opens)
  {
    var u, n := if binds then Join(x, r, id, at, session).state else x, m.(taken := m.taken[r := id]);
    assert u.binding == x.binding && AtPhase(u, n.phase) && NamesUsed(u, n) by { hide BoundAs, BatchBound; }
    hide NamesUsed, AtPhase;
  }

  lemma BindingOnCourse(t: Tracker, c: Course, opens: set<RequestId>)
    requires Named(c) && OnCourse(t, c, opens)
    ensures Named(c.(followed := true)) && OnCourse(t.(binding := true), c.(followed := true), opens)
  {}

  lemma MessageIsNew(t: Tracker, c: Course, opens: set<RequestId>, id: PromptId, r: RequestId, at: nat)
    requires Flat(t) && Named(c) && OnCourse(t, c, opens) && TakeMessage(c, id, r, at).Some?
    ensures t.Resolve(id) == id && id !in t.ended.vals && r !in t.bound && id !in c.names
  {
    hide BoundAs, BatchBound;
  }

  /** What a message does to a tracker that knows its id as no ended turn's, and has not taken its request. */
  lemma MessageEnters(t: Tracker, submit: SubmitRecord, isOpen: bool, session: Option<string>)
    requires submit.promptId.Some? && submit.requestId.Some?
    requires t.Resolve(submit.promptId.value) == submit.promptId.value && submit.promptId.value !in t.ended.vals
    requires submit.requestId.value !in t.bound
    ensures var id, r := submit.promptId.value, submit.requestId.value;
            var sessionId := submit.sessionId.OrElse(session);
            var x := Entered(t.(binding := true), id, submit.atMs, sessionId);
            Submitted(t, submit, isOpen, session).state ==
            if isOpen then Join(x, r, id, submit.atMs, sessionId).state else x
  {
    hide Enter, Join;
  }

  lemma MessageOnCourse(t: Tracker, c: Course, opens: set<RequestId>, submit: SubmitRecord, isOpen: bool,
                        session: Option<string>)
    requires Flat(t) && Named(c) && OnCourse(t, c, opens) && submit.promptId.Some? && submit.requestId.Some?
    requires submit.requestId.value in opens ==> isOpen
    requires TakeMessage(c, submit.promptId.value, submit.requestId.value, submit.atMs).Some?
    ensures var n := TakeMessage(c, submit.promptId.value, submit.requestId.value, submit.atMs).value;
            OnCourse(Submitted(t, submit, isOpen, session).state, n, opens)
  {
    var id, r := submit.promptId.value, submit.requestId.value;
    var b, d := t.(binding := true), c.(followed := true);
    var n := TakeMessage(c, id, r, submit.atMs).value;
    MessageIsNew(t, c, opens, id, r, submit.atMs);
    BindingOnCourse(t, c, opens);
    var sessionId := submit.sessionId.OrElse(session);
    MessageEnters(t, submit, isOpen, session);
    hide OnCourse, Entered, Join, Submitted, Flat, Named;
    MessageNamed(c, id, r, submit.atMs);
    if c.phase.Idle? {
      EnteredAnew(b, d, opens, id, submit.atMs, sessionId);
    } else if id == c.phase.id {
      EnteredAgain(b, d, opens, submit.atMs, sessionId, n.phase);
    } else {
      EnteredRenamed(b, d, opens, id, submit.atMs, sessionId);
    }
    BoundOnCourse(Entered(b, id, submit.atMs, sessionId), n.(taken := c.taken), opens, r, id, submit.atMs, sessionId,
                  isOpen);
  }

  lemma TypedOnCourse(t: Tracker, c: Course, opens: set<RequestId>, submit: SubmitRecord, session: Option<string>)
    requires Flat(t) && Named(c) && OnCourse(t, c, opens) && submit.promptId.Some? && submit.requestId.None?
    requires TakeOther(c, submit.promptId.value, submit.atMs).Some?
    ensures var n := TakeOther(c, submit.promptId.value, submit.atMs).value;
            OnCourse(Submitted(t, submit, false, session).state, n, opens)
  {
    var id := submit.promptId.value;
    var b, d := t.(binding := true), c.(followed := true);
    assert t.Resolve(id) == id && id !in t.ended.vals && (b.IsCurrent(id) <==> !c.phase.Idle?);
    BindingOnCourse(t, c, opens);
    hide Flat, OnCourse, Named;
    if c.phase.Idle? {
      BegunOnCourse(b, d, opens, id, submit.atMs, submit.atMs, submit.sessionId.OrElse(session));
    } else {
      ClosedOnCourse(b, d, opens);
      assert d.used + {id} == d.used by { PhaseIsUsed(c); }
    }
    hide NextLocal, BreakBatch;
  }

  lemma PhaseIsUsed(c: Course)
    requires Named(c) && !c.phase.Idle?
    ensures c.phase.id in c.used
  {}

  lemma SurfaceOnCourse(t: Tracker, c: Course, opens: set<RequestId>, id: PromptId, at: nat, session: Option<string>)
    requires Flat(t) && Named(c) && OnCourse(t, c, opens) && c.Fits(id) && c.followed
    ensures t.Resolve(id) == id
    ensures var u := Surface(t, id, at, session).state;
            && OnCourse(u, c.Uses(id).(phase := if c.phase.Idle? then Running(id, at) else c.phase), opens)
            && u.IsCurrent(id)
            && u.current.value.turn.startedAtMs <= (if c.phase.Idle? then at else c.phase.begunAtMs)
            && (Surfaces(t, id) <==> c.phase.Idle?)
  {
    assert id !in t.ended.vals && id !in t.alias.vals;
    hide Flat;
    if c.phase.Idle? {
      BegunOnCourse(t, c, opens, id, Since(t, at), at, session);
    }
  }

  lemma BegunOnCourse(t: Tracker, c: Course, opens: set<RequestId>, id: PromptId, since: nat, at: nat,
                      session: Option<string>)
    requires OnCourse(t, c, opens) && c.followed && c.phase.Idle? && since <= at
    ensures var u := NextLocal(t, id, since, session).state;
            OnCourse(u, c.Uses(id).(phase := Running(id, at)), opens) && u.IsCurrent(id)
            && u.current.value.turn.startedAtMs <= at
  {}

  lemma ClosedOnCourse(t: Tracker, c: Course, opens: set<RequestId>)
    requires OnCourse(t, c, opens)
    ensures OnCourse(BreakBatch(t), c.(phase := c.phase.Closed()), opens)
  {}

  lemma EndedOnCourse(t: Tracker, c: Course, opens: set<RequestId>, end: TurnEnd)
    requires Named(c) && OnCourse(t, c, opens) && !c.phase.Idle?
    ensures OnCourse(End(t.(lastEndMs := Some(end.AtMs())), end).state, c.(phase := Idle), opens)
  {}

  lemma ToolOnCourse(t: Tracker, c: Course, opens: set<RequestId>, activity: TurnActivity, session: Option<string>)
    requires Flat(t) && Named(c) && OnCourse(t, c, opens) && activity.promptId.Some? && c.followed
    requires TakeOther(c, activity.promptId.value, activity.atMs).Some?
    ensures var n := TakeOther(c, activity.promptId.value, activity.atMs).value;
            OnCourse(Activity(t, activity, session).state, n, opens)
  {
    var id := activity.promptId.value;
    SurfaceOnCourse(t, c, opens, id, activity.atMs, session);
    var m := c.Uses(id).(phase := if c.phase.Idle? then Running(id, activity.atMs) else c.phase);
    ClosedOnCourse(Surface(t, id, activity.atMs, session).state, m, opens);
    assert t.binding;
    hide OnCourse, Surface, Flat, BreakBatch;
  }

  lemma EndOnCourse(t: Tracker, c: Course, opens: set<RequestId>, id: Option<PromptId>, session: Option<string>,
                    end: TurnEnd)
    requires Flat(t) && Named(c) && OnCourse(t, c, opens) && TakeEnd(c, id, end.AtMs()).Some?
    ensures OnCourse(Finished(t, id, session, end).state, TakeEnd(c, id, end.AtMs()).value, opens)
  {
    assert t.binding == c.followed;
    if c.followed {
      if id.None? {
        ClosedOnCourse(t, c, opens);
      } else {
        SurfaceOnCourse(t, c, opens, id.value, end.AtMs(), session);
        var m := c.Uses(id.value).(phase := if c.phase.Idle? then Running(id.value, end.AtMs()) else c.phase);
        var s := Surface(t, id.value, end.AtMs(), session).state;
        EndedOnCourse(s, m, opens, end);
      }
    }
    hide OnCourse, Surface, Flat, BreakBatch, Turns.End;
  }

  /** One record of a well-formed course, whatever it is, keeps the tracker on it. */
  lemma AdvanceOnCourse(t: Tracker, c: Course, opens: set<RequestId>, rec: Record)
    requires Flat(t) && Named(c) && OnCourse(t, c, opens) && StaysOpen(rec, opens) && Advance(c, rec).Some?
    ensures OnCourse(Apply(t, rec).state, Advance(c, rec).value, opens)
  {
    match rec
    case SubmitSeen(submit, isOpen, session) =>
      if submit.promptId.Some? {
        hide OnCourse, Flat;
        if submit.requestId.Some? {
          MessageOnCourse(t, c, opens, submit, isOpen, session);
        } else {
          TypedOnCourse(t, c, opens, submit, session);
        }
      } else {
        ClosedOnCourse(t, c, opens);
      }
    case ActivitySeen(activity, session) =>
      if activity.promptId.Some? && c.followed {
        hide OnCourse, Flat;
        ToolOnCourse(t, c, opens, activity, session);
      }
    case StopSeen(stop, session) =>
      hide OnCourse, Flat;
      EndOnCourse(t, c, opens, stop.promptId, stop.sessionId.OrElse(session), StopEnd(stop));
    case FailureSeen(failure, session) =>
      hide OnCourse, Flat;
      EndOnCourse(t, c, opens, failure.promptId, failure.sessionId.OrElse(session),
                  FailureEnd(failure.atMs, failure.error, failure.errorDetails));
    case Forgotten(_) =>
  }
}
