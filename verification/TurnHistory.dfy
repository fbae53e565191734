/**
 What the turn tracker keeps over any run of records: the alias map stays
 flat, every turn is reported ended once with its requests, local turns'
 events pair up, and, when records come in the order of their times, turns
 are an ordered sequence of intervals.
 */
module TurnHistory {
  import opened Records
  import opened OrderedMaps
  import opened Turns

  // The runs.

  /** Something the tracker is told. `isOpen` and `session` are what the server's hooks answer then. */
  datatype Record =
    | SubmitSeen(submit: SubmitRecord, isOpen: bool, session: Option<string>)
    | ActivitySeen(activity: TurnActivity, session: Option<string>)
    | StopSeen(stop: StopRecord, session: Option<string>)
    | FailureSeen(failure: FailureRecord, session: Option<string>)
    | Forgotten(requestId: RequestId)
  {
    /** The record's time; forgetting a request is no record and has none. */
    function AtMs(): Option<nat> {
      match this
      case SubmitSeen(submit, _, _) => Some(submit.atMs)
      case ActivitySeen(activity, _) => Some(activity.atMs)
      case StopSeen(stop, _) => Some(stop.atMs)
      case FailureSeen(failure, _) => Some(failure.atMs)
      case Forgotten(_) => None
    }
  }

  function Apply(t: Tracker, rec: Record): Effect {
    match rec
    case SubmitSeen(submit, isOpen, session) => Submitted(t, submit, isOpen, session)
    case ActivitySeen(activity, session) => Activity(t, activity, session)
    case StopSeen(stop, session) => Stopped(t, stop, session)
    case FailureSeen(failure, session) => Failed(t, failure, session)
    case Forgotten(requestId) => Effect(Forget(t, requestId), [])
  }

  /** A turn that ended, as it was reported. */
  datatype Ended = Ended(turn: Turn, end: TurnEnd)

  /** What the hook calls of a run told: turns ended, local turns' events, requests started. */
  datatype History = History(ends: seq<Ended>, locals: seq<Call>, starts: seq<RequestId>)

  const NO_HISTORY := History([], [], [])

  function Note(h: History, c: Call): History {
    match c
    case TurnEnded(turn, end) => h.(ends := h.ends + [Ended(turn, end)])
    case LocalTurnStarted(_, _) => h.(locals := h.locals + [c])
    case LocalTurnEnded(_, _, _) => h.(locals := h.locals + [c])
    case PromptStarted(requestId, _, _, _) => h.(starts := h.starts + [requestId])
    case _ => h
  }

  function Noted(h: History, calls: seq<Call>): History
    decreases calls
  {
    if calls == [] then h else Noted(Note(h, calls[0]), calls[1..])
  }

  datatype Followed = Followed(t: Tracker, h: History)

  function Follow(f: Followed, rec: Record): Followed {
    var e := Apply(f.t, rec);
    Followed(e.state, Noted(f.h, e.calls))
  }

  function Run(t: Tracker, recs: seq<Record>): Followed {
    if recs == [] then Followed(t, NO_HISTORY)
    else Follow(Run(t, recs[..|recs| - 1]), recs[|recs| - 1])
  }

  lemma {:induction false} NotedConcat(h: History, a: seq<Call>, b: seq<Call>)
    ensures Noted(h, a + b) == Noted(Noted(h, a), b)
    decreases a
  {
    if a == [] {
      assert a + b == b;
    } else {
      assert (a + b)[1..] == a[1..] + b;
      NotedConcat(Note(h, a[0]), a[1..], b);
    }
  }

  lemma {:induction false} NotedRebound(h: History, calls: seq<Call>)
    requires forall c <- calls :: c.PromptRebound?
    ensures Noted(h, calls) == h
  {
    if calls != [] {
      NotedRebound(h, calls[1..]);
    }
  }

  // What is kept, whatever the records and their order.

  /** The alias map is flat, and the current turn's id is neither an alias nor an ended turn's. */
  ghost predicate Flat(t: Tracker) {
    && |t.alias.keys| <= ENDED_KEPT && |t.ended.keys| <= ENDED_KEPT
    && (forall id <- t.alias.vals :: t.alias.vals[id] !in t.alias.vals)
    && (forall id <- t.alias.vals :: id !in t.ended.vals)
    && (t.current.Some? ==> t.current.value.turn.promptId !in t.alias.vals)
    && (t.current.Some? ==> t.current.value.turn.promptId !in t.ended.vals)
    && (forall id <- t.ended.vals :: t.ended.vals[id].promptId == id)
  }

  /** Only a served turn has a batch, only a local one an event; nothing is followed before binding. */
  ghost predicate WellKinded(t: Tracker) {
    && (t.current.Some? ==>
          var open := t.current.value;
          && (open.turn.kind.Local? <==> open.turn.local.Some?)
          && (open.turn.local.Some? ==> open.batchUntilMs.None?))
    && (!t.binding ==> t.current.None? && t.ended == Empty() && t.bound == map[] && t.alias == Empty())
  }

  function RequestsOf(ends: seq<Ended>): seq<RequestId> {
    if ends == [] then [] else RequestsOf(ends[..|ends| - 1]) + ends[|ends| - 1].turn.requests
  }

  /** The events of local turns that ended: each one's start, then its end, before the next one's. */
  function LocalEventsOf(ends: seq<Ended>): seq<Call> {
    if ends == [] then []
    else
      var last := ends[|ends| - 1];
      LocalEventsOf(ends[..|ends| - 1]) +
      if last.turn.local.None? then []
      else [LocalTurnStarted(last.turn.local.value, last.turn.startedAtMs),
            LocalTurnEnded(last.turn.local.value, last.end.FailureEnd?, last.end.AtMs())]
  }

  function LocalEventsNow(t: Tracker): seq<Call> {
    if t.current.Some? && t.current.value.turn.local.Some?
    then [LocalTurnStarted(t.current.value.turn.local.value, t.current.value.turn.startedAtMs)] else []
  }

  /** `keys` are the ids of the last turns that ended, as many as are remembered. */
  ghost predicate LastKeys(keys: seq<PromptId>, ends: seq<Ended>) {
    && |keys| == (if |ends| < ENDED_KEPT then |ends| else ENDED_KEPT)
    && forall i :: |ends| - |keys| <= i < |ends| ==> keys[i - (|ends| - |keys|)] == ends[i].turn.promptId
  }

  /** The remembered turns are the last ones that ended, in order. */
  ghost predicate RemembersLast(t: Tracker, ends: seq<Ended>) {
    LastKeys(t.ended.keys, ends)
  }

  /** Two turns that ended under one id had at least ENDED_KEPT others end between them. */
  ghost predicate Spaced(ends: seq<Ended>) {
    forall i, j :: 0 <= i < j < |ends| && ends[i].turn.promptId == ends[j].turn.promptId ==> i + ENDED_KEPT < j
  }

  /** Each remembered turn is one that ended, as it was reported. */
  ghost predicate RemembersAsReported(t: Tracker, ends: seq<Ended>) {
    forall id <- t.ended.vals :: exists e <- ends :: e.turn == t.ended.vals[id]
  }

  ghost predicate Tells(t: Tracker, h: History) {
    && h.starts == RequestsOf(h.ends) + t.CurrentRequests()
    && h.locals == LocalEventsOf(h.ends) + LocalEventsNow(t)
    && RemembersLast(t, h.ends) && RemembersAsReported(t, h.ends) && Spaced(h.ends)
  }

  ghost predicate Kept(f: Followed) {
    Flat(f.t) && WellKinded(f.t) && Tells(f.t, f.h)
  }

  lemma ResolvesToUnaliased(t: Tracker, id: PromptId)
    requires Flat(t)
    ensures t.Resolve(id) !in t.alias.vals
    ensures t.Resolve(t.Resolve(id)) == t.Resolve(id)
  {}

  /** The turn that `end` ends, if one is open. */
  function EndedBy(t: Tracker, end: TurnEnd): seq<Ended> {
    if t.current.Some? then [Ended(t.current.value.turn, end)] else []
  }

  lemma EndKeepsFlat(t: Tracker, end: TurnEnd)
    requires Flat(t)
    ensures Flat(End(t, end).state)
    ensures forall id :: id !in t.ended.vals && !t.IsCurrent(id) ==> id !in End(t, end).state.ended.vals
  {}

  lemma EndKeepsMemory(t: Tracker, ends: seq<Ended>, end: TurnEnd)
    requires Flat(t) && t.current.Some? && RemembersLast(t, ends)
    ensures RemembersLast(End(t, end).state, ends + [Ended(t.current.value.turn, end)])
  {
    var id, e := t.current.value.turn.promptId, Ended(t.current.value.turn, end);
    var put := Put(t.ended, id, t.current.value.turn);
    assert put.keys == t.ended.keys + [id];
    assert End(t, end).state.ended.keys == if |put.keys| > ENDED_KEPT then put.keys[1..] else put.keys;
    hide Flat, Turns.End, Put;
    LastKeysMore(t.ended.keys, ends, e, End(t, end).state.ended.keys);
  }

  lemma LastKeysMore(keys: seq<PromptId>, ends: seq<Ended>, e: Ended, more: seq<PromptId>)
    requires LastKeys(keys, ends)
    requires more == if |keys| == ENDED_KEPT then keys[1..] + [e.turn.promptId] else keys + [e.turn.promptId]
    ensures LastKeys(more, ends + [e])
  {}

  lemma LastAreRemembered(t: Tracker, ends: seq<Ended>)
    requires RemembersLast(t, ends)
    ensures forall i :: 0 <= i < |ends| && |ends| - ENDED_KEPT <= i ==> ends[i].turn.promptId in t.ended.vals
  {
    var first := |ends| - |t.ended.keys|;
    forall i | 0 <= i < |ends| && |ends| - ENDED_KEPT <= i ensures ends[i].turn.promptId in t.ended.vals {
      assert t.ended.keys[i - first] == ends[i].turn.promptId;
    }
  }

  lemma EndKeepsSpaced(t: Tracker, ends: seq<Ended>, end: TurnEnd)
    requires Flat(t) && t.current.Some? && RemembersLast(t, ends) && Spaced(ends)
    ensures Spaced(ends + [Ended(t.current.value.turn, end)])
  {
    LastAreRemembered(t, ends);
    hide RemembersLast;
  }

  lemma EndKeepsReports(t: Tracker, ends: seq<Ended>, end: TurnEnd)
    requires t.current.Some? && RemembersAsReported(t, ends)
    ensures RemembersAsReported(End(t, end).state, ends + [Ended(t.current.value.turn, end)])
  {
    var turn, more := t.current.value.turn, ends + [Ended(t.current.value.turn, end)];
    assert Ended(turn, end) in more && forall e <- ends :: e in more;
    hide *;
    var u := End(t, end).state;
    assert u.ended == PutCapped(t.ended, turn.promptId, turn, ENDED_KEPT) by { EndPuts(t, end); }
    assert RemembersAsReported(u, more) by { PutIsReported(t, u, turn, ends, more); }
  }

  lemma EndPuts(t: Tracker, end: TurnEnd)
    requires t.current.Some?
    ensures var turn := t.current.value.turn;
            End(t, end).state.ended == PutCapped(t.ended, turn.promptId, turn, ENDED_KEPT)
  {}

  lemma PutIsReported(t: Tracker, u: Tracker, turn: Turn, ends: seq<Ended>, more: seq<Ended>)
    requires RemembersAsReported(t, ends) && u.ended == PutCapped(t.ended, turn.promptId, turn, ENDED_KEPT)
    requires (exists e <- more :: e.turn == turn) && forall e <- ends :: e in more
    ensures RemembersAsReported(u, more)
  {}

  lemma EndNotes(h: History, turn: Turn, end: TurnEnd)
    ensures var h1 := h.(ends := h.ends + [Ended(turn, end)]);
            Noted(h, EndCalls(turn, end)) ==
            if turn.local.None? then h1
            else h1.(locals := h1.locals + [LocalTurnEnded(turn.local.value, end.FailureEnd?, end.AtMs())])
  {
    if turn.local.Some? {
      var c := LocalTurnEnded(turn.local.value, end.FailureEnd?, end.AtMs());
      NotedConcat(h, [TurnEnded(turn, end)], [c]);
    }
  }

  lemma AppendedEnd(ends: seq<Ended>, e: Ended)
    ensures RequestsOf(ends + [e]) == RequestsOf(ends) + e.turn.requests
    ensures LocalEventsOf(ends + [e]) ==
            LocalEventsOf(ends) +
            if e.turn.local.None? then []
            else [LocalTurnStarted(e.turn.local.value, e.turn.startedAtMs),
                  LocalTurnEnded(e.turn.local.value, e.end.FailureEnd?, e.end.AtMs())]
  {
    assert (ends + [e])[..|ends|] == ends;
  }

  lemma EndTells(t: Tracker, h: History, end: TurnEnd)
    requires Flat(t) && Tells(t, h) && t.current.Some?
    ensures var e := End(t, end);
            && Tells(e.state, Noted(h, e.calls))
            && Noted(h, e.calls).ends == h.ends + EndedBy(t, end)
  {
    hide Flat, RemembersLast, RemembersAsReported, Spaced, RequestsOf, LocalEventsOf, Noted, PutCapped;
    var turn := t.current.value.turn;
    EndKeepsMemory(t, h.ends, end);
    EndKeepsReports(t, h.ends, end);
    EndKeepsSpaced(t, h.ends, end);
    EndNotes(h, turn, end);
    AppendedEnd(h.ends, Ended(turn, end));
    var e := End(t, end);
    assert e.calls == EndCalls(turn, end) && e.state.current.None?;
    hide EndCalls;
    Nothing(RequestsOf(h.ends + [Ended(turn, end)]));
    Nothing(LocalEventsOf(h.ends + [Ended(turn, end)]));
    if turn.local.Some? {
      Assoc(LocalEventsOf(h.ends), [LocalTurnStarted(turn.local.value, turn.startedAtMs)],
            [LocalTurnEnded(turn.local.value, end.FailureEnd?, end.AtMs())]);
    }
  }

  lemma EndKeeps(t: Tracker, h: History, end: TurnEnd)
    requires Kept(Followed(t, h))
    ensures var e := End(t, end);
            && Kept(Followed(e.state, Noted(h, e.calls)))
            && e.state.current.None?
            && Noted(h, e.calls).ends == h.ends + EndedBy(t, end)
            && forall id :: id !in t.ended.vals && !t.IsCurrent(id) ==> id !in e.state.ended.vals
  {
    EndKeepsFlat(t, end);
    if t.current.Some? {
      EndTells(t, h, end);
    }
    hide Flat, Tells;
  }

  lemma BeginLocalKeeps(t: Tracker, h: History, id: PromptId, at: nat, session: Option<string>)
    requires Kept(Followed(t, h)) && t.binding && t.current.None? && id !in t.alias.vals && id !in t.ended.vals
    ensures var e := BeginLocal(t, id, at, session);
            Kept(Followed(e.state, Noted(h, e.calls))) && Noted(h, e.calls).ends == h.ends
  {
    var e := BeginLocal(t, id, at, session);
    assert Noted(h, e.calls) == Note(h, e.calls[0]);
  }

  lemma NextLocalKeeps(t: Tracker, h: History, id: PromptId, at: nat, session: Option<string>)
    requires Kept(Followed(t, h)) && t.binding && !t.IsCurrent(id) && id !in t.alias.vals && id !in t.ended.vals
    ensures var e := NextLocal(t, id, at, session);
            && Kept(Followed(e.state, Noted(h, e.calls)))
            && Noted(h, e.calls).ends == h.ends + EndedBy(t, NextEnd(at))
  {
    var e := End(t, NextEnd(at));
    EndKeeps(t, h, NextEnd(at));
    BeginLocalKeeps(e.state, Noted(h, e.calls), id, at, session);
    NotedConcat(h, e.calls, BeginLocal(e.state, id, at, session).calls);
  }

  lemma RenameKeeps(t: Tracker, h: History, id: PromptId)
    requires Kept(Followed(t, h)) && t.binding && id !in t.alias.vals && id !in t.ended.vals
    requires t.current.Some? && t.current.value.turn.promptId != id && t.current.value.turn.local.None?
    ensures var e := Rename(t, id); Kept(Followed(e.state, h)) && Noted(h, e.calls) == h
  {
    var e := Rename(t, id);
    NotedRebound(h, e.calls);
    RenameKeepsFlat(t, id);
    hide Flat, Realias, RemembersLast, RemembersAsReported;
    SameMemory(t, e.state, h.ends);
  }

  lemma RenameKeepsFlat(t: Tracker, id: PromptId)
    requires Flat(t) && id !in t.alias.vals && id !in t.ended.vals
    requires t.current.Some? && t.current.value.turn.promptId != id
    ensures Flat(Rename(t, id).state)
  {}

  lemma SameMemory(t: Tracker, u: Tracker, ends: seq<Ended>)
    requires RemembersLast(t, ends) && RemembersAsReported(t, ends) && u.ended == t.ended
    ensures RemembersLast(u, ends) && RemembersAsReported(u, ends)
  {}

  lemma BeginServedKeeps(t: Tracker, h: History, id: PromptId, at: nat, session: Option<string>)
    requires Kept(Followed(t, h)) && t.binding && t.current.None? && id !in t.alias.vals && id !in t.ended.vals
    ensures Kept(Followed(BeginServed(t, id, at, session), h))
  {}

  lemma EnterKeeps(t: Tracker, h: History, id: PromptId, at: nat, session: Option<string>)
    requires Kept(Followed(t, h)) && t.binding && id !in t.alias.vals && id !in t.ended.vals
    ensures var e := Enter(t, id, at, session);
            && Kept(Followed(e.state, Noted(h, e.calls))) && e.state.IsCurrent(id) && e.state.binding
  {
    if !t.IsCurrent(id) {
      if t.current.Some? && t.current.value.batchUntilMs.Some? && at <= t.current.value.batchUntilMs.value {
        RenameKeeps(t, h, id);
      } else {
        EndKeeps(t, h, NextEnd(at));
        var e := End(t, NextEnd(at));
        BeginServedKeeps(e.state, Noted(h, e.calls), id, at, session);
        hide Kept;
      }
    }
  }

  /** A tracker whose open batch is closed or extended keeps all there is to keep. */
  lemma BatchKeeps(t: Tracker, h: History, until: Option<nat>)
    requires Kept(Followed(t, h)) && t.current.Some?
    requires t.current.value.turn.local.Some? ==> until.None?
    ensures Kept(Followed(t.(current := Some(t.current.value.(batchUntilMs := until))), h))
  {}

  lemma JoinKeeps(t: Tracker, h: History, r: RequestId, id: PromptId, at: nat, session: Option<string>)
    requires Kept(Followed(t, h)) && t.IsCurrent(id) && t.binding
    ensures var j := Join(t, r, id, at, session); Kept(Followed(j.state, Noted(h, j.calls)))
  {
    var j := Join(t, r, id, at, session);
    assert Flat(j.state) && WellKinded(j.state) by {
      hide Tells;
    }
    SameMemory(t, j.state, h.ends);
    hide Flat, WellKinded, RemembersLast, RemembersAsReported;
    assert Noted(h, j.calls) == h.(starts := h.starts + [r]);
  }

  lemma TakeChannelKeeps(t: Tracker, h: History, r: RequestId, id: PromptId, at: nat, session: Option<string>,
                         isOpen: bool)
    requires Kept(Followed(t, h)) && t.binding && id !in t.alias.vals && id !in t.ended.vals
    ensures var e := TakeChannel(t, r, id, at, session, isOpen); Kept(Followed(e.state, Noted(h, e.calls)))
  {
    EnterKeeps(t, h, id, at, session);
    var e := Enter(t, id, at, session);
    var open := Extended(e.state.current.value, at);
    var h1 := Noted(h, e.calls);
    BatchKeeps(e.state, h1, open.batchUntilMs);
    var x := e.state.(current := Some(open));
    JoinKeeps(x, h1, r, id, at, session);
    NotedConcat(h, e.calls, Join(x, r, id, at, session).calls);
    hide Kept;
  }

  lemma TakeTypedKeeps(t: Tracker, h: History, id: PromptId, at: nat, session: Option<string>)
    requires Kept(Followed(t, h)) && t.binding && id !in t.alias.vals && id !in t.ended.vals
    ensures var e := TakeTyped(t, id, at, session); Kept(Followed(e.state, Noted(h, e.calls)))
  {
    if t.IsCurrent(id) {
      BatchKeeps(t, h, None);
    } else {
      NextLocalKeeps(t, h, id, at, session);
    }
    hide Kept;
  }

  lemma BindingKeeps(t: Tracker, h: History)
    requires Kept(Followed(t, h))
    ensures Kept(Followed(t.(binding := true), h))
  {}

  lemma SubmittedKeeps(t: Tracker, h: History, submit: SubmitRecord, isOpen: bool, session: Option<string>)
    requires Kept(Followed(t, h))
    ensures var e := Submitted(t, submit, isOpen, session); Kept(Followed(e.state, Noted(h, e.calls)))
  {
    if submit.promptId.None? {
      if t.current.Some? {
        BatchKeeps(t, h, None);
      }
    } else {
      var id := t.Resolve(submit.promptId.value);
      ResolvesToUnaliased(t, submit.promptId.value);
      BindingKeeps(t, h);
      hide Kept, Flat;
      var b := t.(binding := true);
      var begun := if t.binding then [] else [BindingStarted];
      assert Noted(h, begun) == h;
      if id !in b.ended.vals {
        var sessionId := submit.sessionId.OrElse(session);
        if submit.requestId.Some? {
          TakeChannelKeeps(b, h, submit.requestId.value, id, submit.atMs, sessionId, isOpen);
          NotedConcat(h, begun, TakeChannel(b, submit.requestId.value, id, submit.atMs, sessionId, isOpen).calls);
        } else {
          TakeTypedKeeps(b, h, id, submit.atMs, sessionId);
          NotedConcat(h, begun, TakeTyped(b, id, submit.atMs, sessionId).calls);
        }
        hide Noted;
      }
    }
  }

  lemma SurfaceKeeps(t: Tracker, h: History, id: PromptId, at: nat, session: Option<string>)
    requires Kept(Followed(t, h)) && t.binding && id !in t.alias.vals
    ensures var e := Surface(t, id, at, session); Kept(Followed(e.state, Noted(h, e.calls)))
  {
    if Surfaces(t, id) {
      NextLocalKeeps(t, h, id, Since(t, at), session);
    }
  }

  /** When the last turn ended is no part of what is kept. */
  lemma LastEndAside(t: Tracker, h: History, at: nat)
    requires Kept(Followed(t, h))
    ensures Kept(Followed(t.(lastEndMs := Some(at)), h))
  {
    hide RequestsOf, LocalEventsOf;
  }

  /** The last steps of `stopped` and `failed`. */
  lemma CloseKeeps(t: Tracker, h: History, end: TurnEnd)
    requires Kept(Followed(t, h))
    ensures var e := End(t.(lastEndMs := Some(end.AtMs())), end); Kept(Followed(e.state, Noted(h, e.calls)))
  {
    hide Kept;
    LastEndAside(t, h, end.AtMs());
    EndKeeps(t.(lastEndMs := Some(end.AtMs())), h, end);
  }

  lemma FinishedKeeps(t: Tracker, h: History, id: Option<PromptId>, session: Option<string>, end: TurnEnd)
    requires Kept(Followed(t, h))
    ensures var e := Finished(t, id, session, end); Kept(Followed(e.state, Noted(h, e.calls)))
  {
    if t.binding {
      if id.None? {
        if t.current.Some? {
          BatchKeeps(t, h, None);
        }
      } else {
        ResolvesToUnaliased(t, id.value);
        var p := t.Resolve(id.value);
        SurfaceKeeps(t, h, p, end.AtMs(), session);
        var s := Surface(t, p, end.AtMs(), session);
        CloseKeeps(s.state, Noted(h, s.calls), end);
        NotedConcat(h, s.calls, End(s.state.(lastEndMs := Some(end.AtMs())), end).calls);
      }
    }
    hide Kept;
  }

  lemma ActivityKeeps(t: Tracker, h: History, activity: TurnActivity, session: Option<string>)
    requires Kept(Followed(t, h))
    ensures var e := Activity(t, activity, session); Kept(Followed(e.state, Noted(h, e.calls)))
  {
    if t.binding && activity.promptId.Some? {
      ResolvesToUnaliased(t, activity.promptId.value);
      var p := t.Resolve(activity.promptId.value);
      SurfaceKeeps(t, h, p, activity.atMs, session);
      var s := Surface(t, p, activity.atMs, session);
      if s.state.IsCurrent(p) {
        BatchKeeps(s.state, Noted(h, s.calls), None);
      }
    }
    hide Kept;
  }

  lemma ForgetKeeps(t: Tracker, h: History, r: RequestId)
    requires Kept(Followed(t, h))
    ensures Kept(Followed(Forget(t, r), h))
  {}

  lemma FollowKeeps(f: Followed, rec: Record)
    requires Kept(f)
    ensures Kept(Follow(f, rec))
  {
    hide Kept;
    match rec
    case SubmitSeen(submit, isOpen, session) => SubmittedKeeps(f.t, f.h, submit, isOpen, session);
    case ActivitySeen(activity, session) => ActivityKeeps(f.t, f.h, activity, session);
    case StopSeen(stop, session) =>
      FinishedKeeps(f.t, f.h, stop.promptId, stop.sessionId.OrElse(session), StopEnd(stop));
    case FailureSeen(failure, session) =>
      FinishedKeeps(f.t, f.h, failure.promptId, failure.sessionId.OrElse(session),
                    FailureEnd(failure.atMs, failure.error, failure.errorDetails));
    case Forgotten(requestId) => ForgetKeeps(f.t, f.h, requestId);
  }

  /** All of the above, over every run of records from every start. */
  lemma {:induction false} RunKeeps(binding: bool, lastStopMs: Option<nat>, recs: seq<Record>)
    ensures Kept(Run(Init(binding, lastStopMs), recs))
  {
    if recs != [] {
      RunKeeps(binding, lastStopMs, recs[..|recs| - 1]);
      FollowKeeps(Run(Init(binding, lastStopMs), recs[..|recs| - 1]), recs[|recs| - 1]);
    }
  }

  // Records in the order of their times.

  /** The time of the latest record. */
  function Clock(recs: seq<Record>): nat {
    if recs == [] then 0
    else recs[|recs| - 1].AtMs().GetOr(Clock(recs[..|recs| - 1]))
  }

  predicate InOrder(recs: seq<Record>) {
    recs == [] ||
    var init, last := recs[..|recs| - 1], recs[|recs| - 1];
    InOrder(init) && Clock(init) <= last.AtMs().GetOr(Clock(init))
  }

  /** Each turn starts no later than it ends, and ends no later than the next one starts. */
  ghost predicate Intervals(ends: seq<Ended>) {
    && (forall i :: 0 <= i < |ends| ==> ends[i].turn.startedAtMs <= ends[i].end.AtMs())
    && (forall i, j :: 0 <= i < j < |ends| ==> ends[i].end.AtMs() <= ends[j].turn.startedAtMs)
  }

  /** `at` comes no earlier than the start of the open turn and the end of every other. */
  ghost predicate After(t: Tracker, ends: seq<Ended>, at: nat) {
    && (forall e <- ends :: e.end.AtMs() <= at)
    && (t.current.Some? ==> t.current.value.turn.startedAtMs <= at)
  }

  ghost predicate Timed(t: Tracker, ends: seq<Ended>, now: nat) {
    && Intervals(ends) && After(t, ends, now)
    && (t.current.Some? ==>
          && t.lastStartMs == Some(t.current.value.turn.startedAtMs)
          && forall e <- ends :: e.end.AtMs() <= t.current.value.turn.startedAtMs)
    && (t.current.None? && ends != [] ==>
          && t.lastEndMs == Some(ends[|ends| - 1].end.AtMs())
          && t.lastStartMs.Some? && t.lastStartMs.value <= t.lastEndMs.value)
    && (t.current.None? && ends == [] ==> t.lastStartMs.None?)
  }

  lemma SinceComesAfter(t: Tracker, ends: seq<Ended>, now: nat, at: nat)
    requires Timed(t, ends, now) && now <= at
    ensures After(t, ends, Since(t, at)) && Since(t, at) <= at
  {
    forall e <- ends ensures e.end.AtMs() <= Since(t, at) {
      var i :| 0 <= i < |ends| && ends[i] == e;
      assert ends[i].end.AtMs() <= ends[|ends| - 1].end.AtMs();
    }
  }

  /**
   A turn nothing announced began where the turn before it ended, when a Stop
   or failure ended that one and no turn runs, and else only when it showed.
   */
  lemma SurfacedFrom(t: Tracker, ends: seq<Ended>, now: nat, at: nat)
    requires Timed(t, ends, now) && now <= at
    ensures t.current.Some? && ends != [] && t.lastEndMs == Some(ends[|ends| - 1].end.AtMs()) ==> Since(t, at) == at
    ensures t.current.None? && ends != [] && t.lastStartMs.value < t.lastEndMs.value ==>
              Since(t, at) == ends[|ends| - 1].end.AtMs()
  {
    if t.current.Some? && ends != [] {
      assert ends[|ends| - 1] in ends;
    }
  }

  /** A turn ended at a time that comes after it began is one more interval. */
  lemma EndIsTimed(t: Tracker, ends: seq<Ended>, now: nat, end: TurnEnd)
    requires Timed(t, ends, now) && After(t, ends, end.AtMs())
    ensures Intervals(ends + EndedBy(t, end))
    ensures forall e <- ends + EndedBy(t, end) :: e.end.AtMs() <= end.AtMs()
  {}

  lemma LaterIsTimed(t: Tracker, ends: seq<Ended>, now: nat, at: nat)
    requires Timed(t, ends, now) && now <= at
    ensures Timed(t, ends, at)
  {}

  /** A turn that begins when the one before ended, or later. */
  lemma BegunIsTimed(t: Tracker, ends: seq<Ended>, since: nat, at: nat)
    requires Intervals(ends) && (forall e <- ends :: e.end.AtMs() <= since) && since <= at
    requires t.current.Some? && t.current.value.turn.startedAtMs == since && t.lastStartMs == Some(since)
    ensures Timed(t, ends, at)
  {}

  lemma NextLocalIsTimed(t: Tracker, h: History, id: PromptId, since: nat, session: Option<string>, now: nat, at: nat)
    requires Kept(Followed(t, h)) && t.binding && !t.IsCurrent(id) && id !in t.alias.vals && id !in t.ended.vals
    requires Timed(t, h.ends, now) && After(t, h.ends, since) && since <= at
    ensures var e := NextLocal(t, id, since, session); Timed(e.state, Noted(h, e.calls).ends, at)
  {
    NextLocalKeeps(t, h, id, since, session);
    EndIsTimed(t, h.ends, now, NextEnd(since));
    BegunIsTimed(NextLocal(t, id, since, session).state, h.ends + EndedBy(t, NextEnd(since)), since, at);
    hide Kept, Timed, Intervals, After;
  }

  lemma RenamedIsTimed(t: Tracker, ends: seq<Ended>, id: PromptId, now: nat)
    requires Timed(t, ends, now) && t.current.Some?
    ensures Timed(Rename(t, id).state, ends, now)
  {
    hide Realias;
  }

  lemma EnterIsTimed(t: Tracker, h: History, id: PromptId, at: nat, session: Option<string>, now: nat)
    requires Kept(Followed(t, h)) && t.binding && id !in t.alias.vals && id !in t.ended.vals
    requires Timed(t, h.ends, now) && now <= at
    ensures var e := Enter(t, id, at, session); Timed(e.state, Noted(h, e.calls).ends, at)
  {
    assert Noted(h, []) == h;
    hide Kept, Intervals, Noted;
    var e := Enter(t, id, at, session);
    LaterIsTimed(t, h.ends, now, at);
    if t.IsCurrent(id) {
    } else if t.current.Some? && t.current.value.batchUntilMs.Some? && at <= t.current.value.batchUntilMs.value {
      NotedRebound(h, e.calls);
      RenamedIsTimed(t, h.ends, id, at);
      hide Timed;
    } else {
      EndKeeps(t, h, NextEnd(at));
      EndIsTimed(t, h.ends, now, NextEnd(at));
      BegunIsTimed(e.state, h.ends + EndedBy(t, NextEnd(at)), at, at);
      hide Timed, After;
    }
  }

  lemma TakeChannelIsTimed(t: Tracker, h: History, r: RequestId, id: PromptId, at: nat, session: Option<string>,
                           isOpen: bool, now: nat)
    requires Kept(Followed(t, h)) && t.binding && id !in t.alias.vals && id !in t.ended.vals
    requires Timed(t, h.ends, now) && now <= at
    ensures var e := TakeChannel(t, r, id, at, session, isOpen); Timed(e.state, Noted(h, e.calls).ends, at)
  {
    hide Kept;
    EnterIsTimed(t, h, id, at, session, now);
    var e := Enter(t, id, at, session);
    var x := e.state.(current := Some(Extended(e.state.current.value, at)));
    var j := Join(x, r, id, at, session);
    NotedConcat(h, e.calls, j.calls);
    assert Noted(Noted(h, e.calls), j.calls).ends == Noted(h, e.calls).ends;
    hide Enter;
  }

  lemma SubmittedIsTimed(t: Tracker, h: History, submit: SubmitRecord, isOpen: bool, session: Option<string>, now: nat)
    requires Kept(Followed(t, h)) && Timed(t, h.ends, now) && now <= submit.atMs
    ensures var e := Submitted(t, submit, isOpen, session); Timed(e.state, Noted(h, e.calls).ends, submit.atMs)
  {
    LaterIsTimed(t, h.ends, now, submit.atMs);
    if submit.promptId.Some? {
      ResolvesToUnaliased(t, submit.promptId.value);
      BindingKeeps(t, h);
      hide Kept, Flat, Intervals;
      var id := t.Resolve(submit.promptId.value);
      var b := t.(binding := true);
      var begun := if t.binding then [] else [BindingStarted];
      assert Noted(h, begun) == h;
      if id !in b.ended.vals {
        var sessionId := submit.sessionId.OrElse(session);
        if submit.requestId.Some? {
          TakeChannelIsTimed(b, h, submit.requestId.value, id, submit.atMs, sessionId, isOpen, now);
          NotedConcat(h, begun, TakeChannel(b, submit.requestId.value, id, submit.atMs, sessionId, isOpen).calls);
        } else {
          if !b.IsCurrent(id) {
            NextLocalIsTimed(b, h, id, submit.atMs, sessionId, now, submit.atMs);
            hide Timed;
          }
          NotedConcat(h, begun, TakeTyped(b, id, submit.atMs, sessionId).calls);
        }
        hide Noted;
      }
    }
  }

  lemma SurfaceIsTimed(t: Tracker, h: History, id: PromptId, at: nat, session: Option<string>, now: nat)
    requires Kept(Followed(t, h)) && t.binding && id !in t.alias.vals && Timed(t, h.ends, now) && now <= at
    ensures var e := Surface(t, id, at, session); Timed(e.state, Noted(h, e.calls).ends, at)
  {
    if Surfaces(t, id) {
      SinceComesAfter(t, h.ends, now, at);
      NextLocalIsTimed(t, h, id, Since(t, at), session, now, at);
    }
  }

  lemma CloseIsTimed(t: Tracker, h: History, end: TurnEnd)
    requires Kept(Followed(t, h)) && Timed(t, h.ends, end.AtMs()) && t.current.Some?
    ensures var e := End(t.(lastEndMs := Some(end.AtMs())), end); Timed(e.state, Noted(h, e.calls).ends, end.AtMs())
  {
    hide Kept, Noted;
    LastEndAside(t, h, end.AtMs());
    EndKeeps(t.(lastEndMs := Some(end.AtMs())), h, end);
    EndIsTimed(t, h.ends, end.AtMs(), end);
  }

  lemma FinishedIsTimed(t: Tracker, h: History, id: Option<PromptId>, session: Option<string>, end: TurnEnd, now: nat)
    requires Kept(Followed(t, h)) && Timed(t, h.ends, now) && now <= end.AtMs()
    ensures var e := Finished(t, id, session, end); Timed(e.state, Noted(h, e.calls).ends, end.AtMs())
  {
    hide Kept;
    if t.binding && id.Some? {
      assert Flat(t) by { KeptIsFlat(Followed(t, h)); }
      ResolvesToUnaliased(t, id.value);
      var p := t.Resolve(id.value);
      SurfaceIsTimed(t, h, p, end.AtMs(), session, now);
      SurfaceKeeps(t, h, p, end.AtMs(), session);
      var s := Surface(t, p, end.AtMs(), session);
      if s.state.current.Some? {
        CloseIsTimed(s.state, Noted(h, s.calls), end);
        NotedConcat(h, s.calls, End(s.state.(lastEndMs := Some(end.AtMs())), end).calls);
      }
      hide Timed, Flat, Surface;
    }
  }

  lemma KeptIsFlat(f: Followed)
    requires Kept(f)
    ensures Flat(f.t)
  {}

  lemma ClosedIsTimed(t: Tracker, ends: seq<Ended>, now: nat)
    requires Timed(t, ends, now)
    ensures Timed(BreakBatch(t), ends, now)
  {}

  lemma ActivityIs(t: Tracker, activity: TurnActivity, session: Option<string>)
    ensures var e := Activity(t, activity, session);
            if !t.binding || activity.promptId.None? then e == Effect(t, [])
            else
              var id := t.Resolve(activity.promptId.value);
              var s := Surface(t, id, activity.atMs, session);
              e == Effect(if s.state.IsCurrent(id) then BreakBatch(s.state) else s.state, s.calls)
  {
    hide Surface, BreakBatch;
  }

  lemma ActivityIsTimed(t: Tracker, h: History, activity: TurnActivity, session: Option<string>, now: nat)
    requires Kept(Followed(t, h)) && Timed(t, h.ends, now) && now <= activity.atMs
    ensures var e := Activity(t, activity, session); Timed(e.state, Noted(h, e.calls).ends, activity.atMs)
  {
    assert Noted(h, []) == h;
    ActivityIs(t, activity, session);
    hide *;
    LaterIsTimed(t, h.ends, now, activity.atMs);
    if t.binding && activity.promptId.Some? {
      KeptIsFlat(Followed(t, h));
      ResolvesToUnaliased(t, activity.promptId.value);
      var s := Surface(t, t.Resolve(activity.promptId.value), activity.atMs, session);
      SurfaceIsTimed(t, h, t.Resolve(activity.promptId.value), activity.atMs, session, now);
      ClosedIsTimed(s.state, Noted(h, s.calls).ends, activity.atMs);
    }
  }

  lemma FollowIsTimed(f: Followed, rec: Record, now: nat)
    requires Kept(f) && Timed(f.t, f.h.ends, now) && now <= rec.AtMs().GetOr(now)
    ensures Timed(Follow(f, rec).t, Follow(f, rec).h.ends, rec.AtMs().GetOr(now))
  {
    hide Kept;
    match rec
    case SubmitSeen(submit, isOpen, session) => SubmittedIsTimed(f.t, f.h, submit, isOpen, session, now);
    case ActivitySeen(activity, session) => ActivityIsTimed(f.t, f.h, activity, session, now);
    case StopSeen(stop, session) =>
      FinishedIsTimed(f.t, f.h, stop.promptId, stop.sessionId.OrElse(session), StopEnd(stop), now);
    case FailureSeen(failure, session) =>
      FinishedIsTimed(f.t, f.h, failure.promptId, failure.sessionId.OrElse(session),
                      FailureEnd(failure.atMs, failure.error, failure.errorDetails), now);
    case Forgotten(_) =>
  }

  /** Over any run fed in nondecreasing time, turns are an ordered sequence of intervals, at most the last one open. */
  lemma {:induction false} RunIsTimed(binding: bool, lastStopMs: Option<nat>, recs: seq<Record>)
    requires InOrder(recs)
    ensures var f := Run(Init(binding, lastStopMs), recs); Timed(f.t, f.h.ends, Clock(recs))
  {
    if recs != [] {
      var before := recs[..|recs| - 1];
      RunIsTimed(binding, lastStopMs, before);
      RunKeeps(binding, lastStopMs, before);
      FollowIsTimed(Run(Init(binding, lastStopMs), before), recs[|recs| - 1], Clock(before));
    }
  }

  /** Shutting down after such a run closes the last interval. */
  lemma ShutdownIsTimed(f: Followed, now: nat, at: nat)
    requires Kept(f) && Timed(f.t, f.h.ends, now) && now <= at
    ensures var e := End(f.t, ShutdownEnd(at));
            Intervals(Noted(f.h, e.calls).ends) && e.state.current.None?
  {
    EndKeeps(f.t, f.h, ShutdownEnd(at));
    EndIsTimed(f.t, f.h.ends, now, ShutdownEnd(at));
  }

  /** Every id that names the open turn, aliases of a batch included, still names it once it ended. */
  lemma EndedTurnKeepsItsNames(t: Tracker, end: TurnEnd, id: PromptId)
    requires Flat(t) && t.current.Some? && t.IsCurrent(t.Resolve(id))
    ensures t.TurnOf(id) == Some(t.current.value.turn) && End(t, end).state.TurnOf(id) == t.TurnOf(id)
  {}

  /** A batch's next message: every retained id that named the turn, and the new one, name it under its new id. */
  lemma RenamedTurnKeepsItsNames(t: Tracker, to: PromptId, id: PromptId)
    requires Flat(t) && t.current.Some? && to !in t.alias.vals && to !in t.ended.vals && !t.IsCurrent(to)
    requires t.IsCurrent(t.Resolve(id)) || id == to
    ensures var n := Rename(t, to).state;
            id in n.alias.vals || id == to ==> n.TurnOf(id) == Some(t.current.value.turn.(promptId := to))
  {}
}
