/**
 What each kind of record does to the running turn, and which calls it makes,
 record by record, and, over whole runs, by the records before it alone: when
 a message is taken together with the one before it, and when a turn that
 nothing announced began.
 */
module TurnLaws {
  import opened Records
  import opened OrderedMaps
  import opened Turns
  import opened TurnHistory
  import opened TurnRules

  /** `id` names neither the running turn nor a remembered one. */
  predicate Unknown(t: Tracker, id: PromptId) {
    t.TurnOf(id).None?
  }

  /** The calls that tell of the running turn's end, if one runs. */
  function EndTold(t: Tracker, end: TurnEnd): seq<Call> {
    if t.current.None? then []
    else
      var turn := t.current.value.turn;
      if turn.local.None? then [TurnEnded(turn, end)]
      else [TurnEnded(turn, end), LocalTurnEnded(turn.local.value, end.FailureEnd?, end.AtMs())]
  }

  /** Told by the first submit with a prompt id, before anything else. */
  function BindingTold(t: Tracker): seq<Call> {
    if t.binding then [] else [BindingStarted]
  }

  /** The batch of the running turn is open at `at`. */
  predicate InBatch(t: Tracker, at: nat) {
    BatchUntil(t).Some? && at <= BatchUntil(t).value
  }

  /** The session a submit is of: its own, or else the one going on. */
  function SessionOf(submit: SubmitRecord, session: Option<string>): Option<string> {
    if submit.sessionId.Some? then submit.sessionId else session
  }

  // Messages.

  /** A message binds its request when that is open and was never bound. */
  predicate Binds(t: Tracker, submit: SubmitRecord, isOpen: bool) {
    submit.requestId.Some? && isOpen && submit.requestId.value !in t.bound
  }

  /** `requests` with the message's own, if it binds it. */
  function WithOwn(t: Tracker, submit: SubmitRecord, isOpen: bool, requests: seq<RequestId>): seq<RequestId> {
    if Binds(t, submit, isOpen) then requests + [submit.requestId.value] else requests
  }

  function StartTold(t: Tracker, submit: SubmitRecord, isOpen: bool, turn: Turn, session: Option<string>): seq<Call> {
    if Binds(t, submit, isOpen)
    then [PromptStarted(submit.requestId.value, turn, submit.atMs, SessionOf(submit, session))] else []
  }

  /** `bound` with the message's own request, if it binds it. */
  function BoundWith(t: Tracker, submit: SubmitRecord, isOpen: bool, bound: map<RequestId, PromptId>, id: PromptId)
    : map<RequestId, PromptId>
  {
    if Binds(t, submit, isOpen) then bound[submit.requestId.value := id] else bound
  }

  /**
   A message under an unknown id while no batch is open ends the running turn
   at its own time, and begins one with its own request and no other.
   */
  lemma MessageBegins(t: Tracker, submit: SubmitRecord, isOpen: bool, session: Option<string>)
    requires submit.promptId.Some? && submit.requestId.Some? && Unknown(t, submit.promptId.value)
    requires !InBatch(t, submit.atMs)
    ensures var e := Apply(t, SubmitSeen(submit, isOpen, session));
            var id, at := t.Resolve(submit.promptId.value), submit.atMs;
            var turn := Turn(id, Served, at, SessionOf(submit, session), WithOwn(t, submit, isOpen, []), None);
            && e.calls == BindingTold(t) + EndTold(t, NextEnd(at)) + StartTold(t, submit, isOpen, turn, session)
            && e.state == t.(binding := true, current := Some(OpenTurn(turn, Some(at + CHANNEL_BATCH_MS))),
                             lastStartMs := Some(at), ended := e.state.ended,
                             bound := BoundWith(t, submit, isOpen, t.bound, id))
  {
    hide PutCapped;
  }

  /**
   A message under an unknown id while the batch is open is taken into the
   running turn, which ends not, goes by that id from then on, and has all
   its requests bound to it anew, in order.
   */
  lemma MessageJoins(t: Tracker, submit: SubmitRecord, isOpen: bool, session: Option<string>)
    requires submit.promptId.Some? && submit.requestId.Some? && Unknown(t, submit.promptId.value)
    requires InBatch(t, submit.atMs) && t.binding
    ensures var e := Apply(t, SubmitSeen(submit, isOpen, session));
            var id, at := t.Resolve(submit.promptId.value), submit.atMs;
            var was := t.current.value.turn;
            var turn := was.(promptId := id, requests := WithOwn(t, submit, isOpen, was.requests));
            && e.calls == seq(|was.requests|, i requires 0 <= i < |was.requests| => PromptRebound(was.requests[i], id))
                          + StartTold(t, submit, isOpen, turn, session)
            && e.state == t.(current := Some(OpenTurn(turn, Some(at + CHANNEL_BATCH_MS))), alias := e.state.alias,
                             bound := BoundWith(t, submit, isOpen, (t.bound + map r | r in was.requests :: id), id))
  {
    hide PutCapped, Realias;
  }

  /**
   The names of a turn whose message was taken: its id until now, and every id
   that named it, names the new one; every other keeps its meaning. When as
   many are remembered as may be, the oldest of them is forgotten, and no other.
   */
  lemma JoinKeepsNames(t: Tracker, submit: SubmitRecord, isOpen: bool, session: Option<string>)
    requires submit.promptId.Some? && submit.requestId.Some? && Unknown(t, submit.promptId.value)
    requires InBatch(t, submit.atMs) && Flat(t) && t.binding
    ensures var u, id := Apply(t, SubmitSeen(submit, isOpen, session)).state, t.Resolve(submit.promptId.value);
            var was := t.current.value.turn.promptId;
            && u.Resolve(was) == id
            && (forall x <- t.alias.vals :: |t.alias.keys| < ENDED_KEPT || x != t.alias.keys[0] ==>
                  x in u.alias.vals && u.Resolve(x) == if t.Resolve(x) == was then id else t.Resolve(x))
            && (forall x :: x !in t.alias.vals && x != was ==> u.Resolve(x) == x)
  {
    var id, was := t.Resolve(submit.promptId.value), t.current.value.turn.promptId;
    assert Apply(t, SubmitSeen(submit, isOpen, session)).state.alias == Realias(t.alias, was, id) by {
      hide Realias, PutCapped;
    }
    RealiasKeeps(t.alias, was, id);
    hide Apply, Realias;
  }

  lemma RealiasKeeps(alias: OMap<PromptId, PromptId>, from: PromptId, to: PromptId)
    requires from !in alias.vals && |alias.keys| <= ENDED_KEPT
    ensures var n := Realias(alias, from, to).vals;
            && from in n && n[from] == to && (forall x <- n :: x == from || x in alias.vals)
            && forall x <- alias.vals :: |alias.keys| < ENDED_KEPT || x != alias.keys[0] ==>
                 x in n && n[x] == if alias.vals[x] == from then to else alias.vals[x]
  {
    assert Put(Moved(alias, from, to), from, to).keys == alias.keys + [from];
  }

  /** A message under the running turn's id is folded into it, and keeps an open batch open. */
  lemma MessageFolds(t: Tracker, submit: SubmitRecord, isOpen: bool, session: Option<string>)
    requires submit.promptId.Some? && submit.requestId.Some? && t.IsCurrent(t.Resolve(submit.promptId.value))
    requires Flat(t) && t.binding
    ensures var e, was := Apply(t, SubmitSeen(submit, isOpen, session)), t.current.value.turn;
            var turn := was.(requests := WithOwn(t, submit, isOpen, was.requests));
            var until := if BatchUntil(t).Some? then Some(submit.atMs + CHANNEL_BATCH_MS) else None;
            && e.calls == StartTold(t, submit, isOpen, turn, session)
            && e.state == t.(current := Some(OpenTurn(turn, until)),
                             bound := BoundWith(t, submit, isOpen, t.bound, was.promptId))
  {
    hide PutCapped, Realias;
  }

  /** A submit that names a turn remembered as ended does nothing more than begin the binding. */
  lemma SubmitOfEnded(t: Tracker, submit: SubmitRecord, isOpen: bool, session: Option<string>)
    requires submit.promptId.Some? && t.Resolve(submit.promptId.value) in t.ended.vals
    ensures Apply(t, SubmitSeen(submit, isOpen, session)) == Effect(t.(binding := true), BindingTold(t))
  {}

  /** A submit without a prompt id is told to nobody; one that is no message closes the batch. */
  lemma SubmitWithoutId(t: Tracker, submit: SubmitRecord, isOpen: bool, session: Option<string>)
    requires submit.promptId.None?
    ensures var e := Apply(t, SubmitSeen(submit, isOpen, session));
            && e.calls == []
            && (submit.requestId.Some? ==> e.state == t)
            && (submit.requestId.None? ==> BatchClosed(t, e.state))
  {}

  /** `u` is `t` but for the batch of its running turn, which is closed. */
  ghost predicate BatchClosed(t: Tracker, u: Tracker) {
    && u == t.(current := u.current) && BatchUntil(u).None?
    && u.current.Some? == t.current.Some?
    && (t.current.Some? ==> u.current.value.turn == t.current.value.turn)
  }

  // Turns of Claude Code's own.

  /** The event of a local turn under `id`: its id has a prefix of its own. */
  function LocalNamed(id: PromptId, session: Option<string>): LocalTurn {
    LocalTurn("local-" + id.text, session)
  }

  /** `u` is `t` with a local turn under `id` running since `since`: no request in it, no batch, no binding changed. */
  ghost predicate RunsLocal(t: Tracker, u: Tracker, id: PromptId, since: nat, session: Option<string>) {
    u == t.(binding := true, lastStartMs := Some(since), ended := u.ended,
            current := Some(OpenTurn(Turn(id, Local, since, session, [], Some(LocalNamed(id, session))), None)))
  }

  /** Text typed under an unknown id ends the running turn at its own time, and begins a local one. */
  lemma TypedBegins(t: Tracker, submit: SubmitRecord, isOpen: bool, session: Option<string>)
    requires submit.promptId.Some? && submit.requestId.None? && Unknown(t, submit.promptId.value)
    ensures var e := Apply(t, SubmitSeen(submit, isOpen, session));
            var id, at := t.Resolve(submit.promptId.value), submit.atMs;
            var of := SessionOf(submit, session);
            && e.calls == BindingTold(t) + EndTold(t, NextEnd(at)) + [LocalTurnStarted(LocalNamed(id, of), at)]
            && RunsLocal(t, e.state, id, at, of)
  {
    hide PutCapped;
    var local := LocalNamed(t.Resolve(submit.promptId.value), SessionOf(submit, session));
    Assoc(BindingTold(t), EndTold(t, NextEnd(submit.atMs)), [LocalTurnStarted(local, submit.atMs)]);
  }

  /** Text typed under the running turn's id closes its batch, and no more. */
  lemma TypedContinues(t: Tracker, submit: SubmitRecord, isOpen: bool, session: Option<string>)
    requires submit.promptId.Some? && submit.requestId.None? && t.IsCurrent(t.Resolve(submit.promptId.value))
    requires Flat(t) && t.binding
    ensures var e := Apply(t, SubmitSeen(submit, isOpen, session)); e.calls == [] && BatchClosed(t, e.state)
  {}

  /** When a turn that shows at `at` began: with the last Stop, if nothing began since and that is past, or at `at`. */
  function Began(lastStart: Option<nat>, lastStop: Option<nat>, at: nat): nat {
    match lastStop
    case None => at
    case Some(stop) => if stop <= at && (lastStart.None? || lastStart.value < stop) then stop else at
  }

  lemma ShowsAsLocal(t: Tracker, id: PromptId, at: nat, session: Option<string>)
    requires t.binding && !t.IsCurrent(id) && id !in t.ended.vals
    ensures var e, since := Surface(t, id, at, session), Began(t.lastStartMs, t.lastEndMs, at);
            && e.calls == EndTold(t, NextEnd(since)) + [LocalTurnStarted(LocalNamed(id, session), since)]
            && RunsLocal(t, e.state, id, since, session)
  {
    hide PutCapped;
  }

  /**
   A tool call of an unknown turn ends the running one where the new one
   began, and begins a local one, of the session going on.
   */
  lemma CallBegins(t: Tracker, activity: TurnActivity, session: Option<string>)
    requires t.binding && activity.promptId.Some? && Unknown(t, activity.promptId.value)
    ensures var e, id := Apply(t, ActivitySeen(activity, session)), t.Resolve(activity.promptId.value);
            var since := Began(t.lastStartMs, t.lastEndMs, activity.atMs);
            && e.calls == EndTold(t, NextEnd(since)) + [LocalTurnStarted(LocalNamed(id, session), since)]
            && RunsLocal(t, e.state, id, since, session)
  {
    ShowsAsLocal(t, t.Resolve(activity.promptId.value), activity.atMs, session);
    hide Surface, EndTold, Began;
  }

  /** Any other tool call tells nobody anything; one of the running turn closes its batch. */
  lemma CallContinues(t: Tracker, activity: TurnActivity, session: Option<string>)
    requires !(t.binding && activity.promptId.Some? && Unknown(t, activity.promptId.value)) && Flat(t)
    ensures var e := Apply(t, ActivitySeen(activity, session));
            && e.calls == []
            && if t.binding && activity.promptId.Some? && t.IsCurrent(t.Resolve(activity.promptId.value))
               then BatchClosed(t, e.state) else e.state == t
  {}

  // Stops and failures.

  predicate IsEnd(rec: Record) {
    rec.StopSeen? || rec.FailureSeen?
  }

  /** The turn a Stop or a failure names, what end it is, and of which session. */
  function IdIn(rec: Record): Option<PromptId>
    requires IsEnd(rec)
  {
    if rec.StopSeen? then rec.stop.promptId else rec.failure.promptId
  }

  function EndIn(rec: Record): TurnEnd
    requires IsEnd(rec)
  {
    if rec.StopSeen? then StopEnd(rec.stop)
    else FailureEnd(rec.failure.atMs, rec.failure.error, rec.failure.errorDetails)
  }

  function EndsSession(rec: Record): Option<string>
    requires IsEnd(rec)
  {
    var own := if rec.StopSeen? then rec.stop.sessionId else rec.failure.sessionId;
    if own.Some? then own else rec.session
  }

  /** A Stop or failure of the running turn later than its start ends that turn, with itself, at its own time. */
  lemma OwnEndEnds(t: Tracker, rec: Record)
    requires IsEnd(rec) && t.binding && IdIn(rec).Some? && t.IsCurrent(t.Resolve(IdIn(rec).value))
    requires Flat(t) && t.current.value.turn.startedAtMs < EndIn(rec).AtMs()
    ensures var e := Apply(t, rec);
            && e.calls == EndTold(t, EndIn(rec))
            && e.state == t.(current := None, lastEndMs := Some(EndIn(rec).AtMs()), ended := e.state.ended)
  {
    hide PutCapped;
  }

  /** One that names an unknown turn tells of all of that turn: the end of the one before, its start, its end. */
  lemma UnknownEnds(t: Tracker, rec: Record)
    requires IsEnd(rec) && t.binding && IdIn(rec).Some? && Unknown(t, IdIn(rec).value)
    ensures var e, id, end := Apply(t, rec), t.Resolve(IdIn(rec).value), EndIn(rec);
            var since := Began(t.lastStartMs, t.lastEndMs, end.AtMs());
            var local := LocalNamed(id, EndsSession(rec));
            && e.calls == EndTold(t, NextEnd(since)) + [LocalTurnStarted(local, since)]
                          + [TurnEnded(Turn(id, Local, since, EndsSession(rec), [], Some(local)), end),
                             LocalTurnEnded(local, rec.FailureSeen?, end.AtMs())]
            && e.state == t.(current := None, lastStartMs := Some(since), lastEndMs := Some(end.AtMs()),
                             ended := e.state.ended)
  {
    var id, end := t.Resolve(IdIn(rec).value), EndIn(rec);
    var s := Surface(t, id, end.AtMs(), EndsSession(rec));
    ShowsAsLocal(t, id, end.AtMs(), EndsSession(rec));
    EndsLocal(s.state.(lastEndMs := Some(end.AtMs())), end);
    hide Surface, EndTold, Began, Turns.End;
  }

  lemma EndsLocal(t: Tracker, end: TurnEnd)
    requires t.current.Some? && t.current.value.turn.local.Some?
    ensures var e, turn := End(t, end), t.current.value.turn;
            && e.calls == [TurnEnded(turn, end), LocalTurnEnded(turn.local.value, end.FailureEnd?, end.AtMs())]
            && e.state == t.(current := None, ended := e.state.ended)
  {
    hide PutCapped;
  }

  /** Every other one ends nothing: before turns are followed, of a remembered turn, or no later than the start. */
  lemma LateEndIsIgnored(t: Tracker, rec: Record)
    requires IsEnd(rec) && Flat(t)
    requires t.binding && IdIn(rec).Some? ==>
               && !Unknown(t, IdIn(rec).value)
               && (t.IsCurrent(t.Resolve(IdIn(rec).value)) ==>
                     EndIn(rec).AtMs() <= t.current.value.turn.startedAtMs)
    ensures var e := Apply(t, rec);
            && e.calls == []
            && if t.binding && IdIn(rec).None? then BatchClosed(t, e.state) else e.state == t
  {
    hide PutCapped;
  }

  /** A shutdown ends the running turn, and begins none. */
  lemma ShutdownEnds(t: Tracker, at: nat)
    ensures var e := End(t, ShutdownEnd(at)); e.calls == EndTold(t, ShutdownEnd(at)) && e.state.current.None?
  {
    hide PutCapped;
  }

  // Over runs: which messages are taken together.

  /** A message whose id is not an ended turn's. */
  predicate Taken(t: Tracker, rec: Record) {
    IsMessage(rec) && t.Resolve(rec.submit.promptId.value) !in t.ended.vals
  }

  /** When the message came that last opened or extended the open batch, after `rec` made `u` of `t`. */
  function BatchedNext(t: Tracker, u: Tracker, rec: Record, batched: Option<nat>): Option<nat> {
    if u.current.None? || u.current.value.turn.kind.Local? then None
    else if Taken(t, rec) then
      if t.IsCurrent(t.Resolve(rec.submit.promptId.value)) && batched.None? then None else Some(rec.submit.atMs)
    else if Closes(t, rec) then None
    else batched
  }

  /**
   The same over a run: a message that brings its turn a new id opens the
   batch, one under the id the turn has extends it, and anything else of the
   log between two messages closes it.
   */
  function BatchedAt(t: Tracker, recs: seq<Record>): Option<nat> {
    if recs == [] then None
    else
      var init := recs[..|recs| - 1];
      BatchedNext(Run(t, init).t, Run(t, recs).t, recs[|recs| - 1], BatchedAt(t, init))
  }

  function Deadline(batched: Option<nat>): Option<nat> {
    if batched.Some? then Some(batched.value + CHANNEL_BATCH_MS) else None
  }

  lemma MessageStep(t: Tracker, rec: Record, batched: Option<nat>)
    requires Flat(t) && WellKinded(t) && BatchUntil(t) == Deadline(batched) && IsMessage(rec)
    ensures var u := Apply(t, rec).state; BatchUntil(u) == Deadline(BatchedNext(t, u, rec, batched))
  {
    hide PutCapped, Realias;
  }

  lemma EndStep(t: Tracker, rec: Record, batched: Option<nat>)
    requires Flat(t) && WellKinded(t) && BatchUntil(t) == Deadline(batched) && IsEnd(rec)
    ensures var u := Apply(t, rec).state; BatchUntil(u) == Deadline(BatchedNext(t, u, rec, batched))
  {
    if t.binding && IdIn(rec).Some? && Unknown(t, IdIn(rec).value) {
      UnknownEnds(t, rec);
      hide Apply;
    } else if t.binding && IdIn(rec).Some? && t.IsCurrent(t.Resolve(IdIn(rec).value))
              && t.current.value.turn.startedAtMs < EndIn(rec).AtMs() {
      OwnEndEnds(t, rec);
      hide Apply;
    } else {
      LateEndIsIgnored(t, rec);
      hide Apply;
    }
  }

  lemma TypedStep(t: Tracker, rec: Record, batched: Option<nat>)
    requires Flat(t) && WellKinded(t) && BatchUntil(t) == Deadline(batched)
    requires rec.SubmitSeen? && rec.submit.requestId.None? && rec.submit.promptId.Some?
    ensures var u := Apply(t, rec).state; BatchUntil(u) == Deadline(BatchedNext(t, u, rec, batched))
  {
    if Unknown(t, rec.submit.promptId.value) {
      TypedBegins(t, rec.submit, rec.isOpen, rec.session);
      hide Apply;
    } else if t.IsCurrent(t.Resolve(rec.submit.promptId.value)) {
      TypedContinues(t, rec.submit, rec.isOpen, rec.session);
      hide Apply;
    } else {
      SubmitOfEnded(t, rec.submit, rec.isOpen, rec.session);
      hide Apply;
    }
  }

  lemma CallStep(t: Tracker, rec: Record, batched: Option<nat>)
    requires Flat(t) && WellKinded(t) && BatchUntil(t) == Deadline(batched) && rec.ActivitySeen?
    ensures var u := Apply(t, rec).state; BatchUntil(u) == Deadline(BatchedNext(t, u, rec, batched))
  {
    if t.binding && rec.activity.promptId.Some? && Unknown(t, rec.activity.promptId.value) {
      CallBegins(t, rec.activity, rec.session);
    } else {
      CallContinues(t, rec.activity, rec.session);
    }
    hide Apply;
  }

  lemma DeadlineStep(t: Tracker, rec: Record, batched: Option<nat>)
    requires Flat(t) && WellKinded(t) && BatchUntil(t) == Deadline(batched)
    ensures var u := Apply(t, rec).state; BatchUntil(u) == Deadline(BatchedNext(t, u, rec, batched))
  {
    match rec
    case SubmitSeen(submit, isOpen, session) =>
      if submit.promptId.None? {
        SubmitWithoutId(t, submit, isOpen, session);
      } else if submit.requestId.Some? {
        MessageStep(t, rec, batched);
      } else {
        TypedStep(t, rec, batched);
      }
      hide Apply;
    case ActivitySeen(_, _) => CallStep(t, rec, batched); hide Apply;
    case StopSeen(_, _) => EndStep(t, rec, batched); hide Apply;
    case FailureSeen(_, _) => EndStep(t, rec, batched); hide Apply;
    case Forgotten(_) =>
  }

  lemma {:induction false} DeadlineOverRuns(binding: bool, lastStopMs: Option<nat>, recs: seq<Record>)
    ensures var t := Init(binding, lastStopMs); BatchUntil(Run(t, recs).t) == Deadline(BatchedAt(t, recs))
  {
    var t := Init(binding, lastStopMs);
    if recs != [] {
      var init, rec := recs[..|recs| - 1], recs[|recs| - 1];
      DeadlineOverRuns(binding, lastStopMs, init);
      RunKeeps(binding, lastStopMs, init);
      hide Flat, WellKinded, Tells, Apply, BatchUntil, BatchedNext, Deadline;
      DeadlineStep(Run(t, init).t, rec, BatchedAt(t, init));
    }
  }

  /** `rec` is a message under an unknown id, and the message that last opened or extended the batch is near enough. */
  predicate TakenWithTheOneBefore(t: Tracker, batched: Option<nat>, rec: Record) {
    && IsMessage(rec) && Unknown(t, rec.submit.promptId.value)
    && batched.Some? && rec.submit.atMs <= batched.value + CHANNEL_BATCH_MS
  }

  lemma TakesOrBegins(t: Tracker, rec: Record, batched: Option<nat>)
    requires Flat(t) && WellKinded(t) && BatchUntil(t) == Deadline(batched)
    requires IsMessage(rec) && Unknown(t, rec.submit.promptId.value)
    ensures TakenWithTheOneBefore(t, batched, rec) <==> InBatch(t, rec.submit.atMs)
    ensures InBatch(t, rec.submit.atMs) ==> t.binding && t.current.value.turn.kind.Served?
  {}

  predicate Rebinds(calls: seq<Call>) {
    exists c <- calls :: c.PromptRebound?
  }

  lemma StartsOnly(t: Tracker, submit: SubmitRecord, isOpen: bool, turn: Turn, session: Option<string>, end: TurnEnd)
    ensures !Rebinds(StartTold(t, submit, isOpen, turn, session)) && !Rebinds(EndTold(t, end))
    ensures !Rebinds(BindingTold(t))
  {}

  lemma RebindsConcat(a: seq<Call>, b: seq<Call>)
    ensures Rebinds(a + b) <==> Rebinds(a) || Rebinds(b)
  {
    if Rebinds(a) {
      var c :| c in a && c.PromptRebound?;
      assert c in a + b;
    }
    if Rebinds(b) {
      var c :| c in b && c.PromptRebound?;
      assert c in a + b;
    }
  }

  lemma AllRebind(requests: seq<RequestId>, id: PromptId)
    ensures Rebinds(seq(|requests|, i requires 0 <= i < |requests| => PromptRebound(requests[i], id)))
            <==> requests != []
  {
    var calls := seq(|requests|, i requires 0 <= i < |requests| => PromptRebound(requests[i], id));
    assert requests != [] ==> calls[0].PromptRebound? && calls[0] in calls;
  }

  /** No record but a message under an unknown id, in an open batch, has a request bound anew. */
  lemma RebindingIsTaking(t: Tracker, rec: Record, batched: Option<nat>)
    requires Flat(t) && WellKinded(t) && BatchUntil(t) == Deadline(batched)
    ensures Rebinds(Apply(t, rec).calls) <==> TakenWithTheOneBefore(t, batched, rec) && t.CurrentRequests() != []
  {
    match rec
    case SubmitSeen(submit, isOpen, session) =>
      if submit.promptId.None? {
        SubmitWithoutId(t, submit, isOpen, session);
        hide Apply;
      } else if t.Resolve(submit.promptId.value) in t.ended.vals {
        SubmitOfEnded(t, submit, isOpen, session);
        hide Apply;
      } else if submit.requestId.Some? {
        MessageRebinds(t, rec, batched);
        hide Apply;
      } else if t.IsCurrent(t.Resolve(submit.promptId.value)) {
        TypedContinues(t, submit, isOpen, session);
        hide Apply;
      } else {
        TypedBegins(t, submit, isOpen, session);
        hide Apply;
      }
    case ActivitySeen(activity, session) =>
      if t.binding && activity.promptId.Some? && Unknown(t, activity.promptId.value) {
        CallBegins(t, activity, session);
      } else {
        CallContinues(t, activity, session);
      }
      hide Apply;
    case StopSeen(_, _) => EndRebindsNone(t, rec); hide Apply;
    case FailureSeen(_, _) => EndRebindsNone(t, rec); hide Apply;
    case Forgotten(_) =>
  }

  lemma EndRebindsNone(t: Tracker, rec: Record)
    requires Flat(t) && IsEnd(rec)
    ensures !Rebinds(Apply(t, rec).calls)
  {
    if t.binding && IdIn(rec).Some? && Unknown(t, IdIn(rec).value) {
      UnknownEnds(t, rec);
      var end := EndIn(rec);
      var local, of := LocalNamed(t.Resolve(IdIn(rec).value), EndsSession(rec)), EndsSession(rec);
      var since := Began(t.lastStartMs, t.lastEndMs, end.AtMs());
      var ends, starts := EndTold(t, NextEnd(since)), [LocalTurnStarted(local, since)];
      var own := [TurnEnded(Turn(t.Resolve(IdIn(rec).value), Local, since, of, [], Some(local)), end),
                  LocalTurnEnded(local, rec.FailureSeen?, end.AtMs())];
      assert !Rebinds(starts) && !Rebinds(own) && !Rebinds(ends);
      hide Apply, Rebinds, EndTold;
      RebindsConcat(ends, starts);
      RebindsConcat(ends + starts, own);
    } else if t.binding && IdIn(rec).Some? && t.IsCurrent(t.Resolve(IdIn(rec).value))
              && t.current.value.turn.startedAtMs < EndIn(rec).AtMs() {
      OwnEndEnds(t, rec);
      hide Apply;
    } else {
      LateEndIsIgnored(t, rec);
      hide Apply;
    }
  }

  lemma MessageRebinds(t: Tracker, rec: Record, batched: Option<nat>)
    requires Flat(t) && WellKinded(t) && BatchUntil(t) == Deadline(batched) && Taken(t, rec)
    ensures Rebinds(Apply(t, rec).calls) <==> TakenWithTheOneBefore(t, batched, rec) && t.CurrentRequests() != []
  {
    var submit, isOpen, session, at := rec.submit, rec.isOpen, rec.session, rec.submit.atMs;
    var id, requests := t.Resolve(submit.promptId.value), t.CurrentRequests();
    if t.IsCurrent(id) {
      MessageFolds(t, submit, isOpen, session);
      hide Apply;
    } else if InBatch(t, at) {
      MessageJoins(t, submit, isOpen, session);
      var turn := t.current.value.turn.(promptId := id, requests := WithOwn(t, submit, isOpen, requests));
      StartsOnly(t, submit, isOpen, turn, session, NextEnd(at));
      hide Apply, Rebinds, StartTold, Flat, WellKinded;
      AllRebind(requests, id);
      RebindsConcat(seq(|requests|, i requires 0 <= i < |requests| => PromptRebound(requests[i], id)),
                    StartTold(t, submit, isOpen, turn, session));
    } else {
      MessageBegins(t, submit, isOpen, session);
      var turn := Turn(id, Served, at, SessionOf(submit, session), WithOwn(t, submit, isOpen, []), None);
      StartsOnly(t, submit, isOpen, turn, session, NextEnd(at));
      hide Apply, Rebinds, StartTold, EndTold, BindingTold, Flat, WellKinded;
      RebindsConcat(BindingTold(t), EndTold(t, NextEnd(at)));
      RebindsConcat(BindingTold(t) + EndTold(t, NextEnd(at)), StartTold(t, submit, isOpen, turn, session));
    }
  }

  lemma TakenOrBegun(t: Tracker, batched: Option<nat>, rec: Record)
    requires Flat(t) && WellKinded(t) && BatchUntil(t) == Deadline(batched)
    requires IsMessage(rec) && Unknown(t, rec.submit.promptId.value)
    ensures var e := Apply(t, rec);
            if TakenWithTheOneBefore(t, batched, rec) then
              && (forall c <- e.calls :: !c.TurnEnded?)
              && e.state.current.Some? && t.CurrentRequests() <= e.state.CurrentRequests()
              && e.state.current.value.turn.startedAtMs == t.current.value.turn.startedAtMs
            else
              && (t.current.Some? ==> TurnEnded(t.current.value.turn, NextEnd(rec.submit.atMs)) in e.calls)
              && e.state.current.Some? && e.state.current.value.turn.startedAtMs == rec.submit.atMs
              && forall r <- e.state.CurrentRequests() :: Some(r) == rec.submit.requestId
  {
    TakesOrBegins(t, rec, batched);
    hide Apply, Flat, WellKinded;
    if InBatch(t, rec.submit.atMs) {
      MessageJoins(t, rec.submit, rec.isOpen, rec.session);
    } else {
      MessageBegins(t, rec.submit, rec.isOpen, rec.session);
    }
  }

  /**
   Over any run, whatever the order of the records' times: a record has
   requests bound anew if and only if it is a message under an unknown id,
   at most CHANNEL_BATCH_MS after the one that last opened or extended the
   batch of a turn with requests. A message under an unknown id that comes
   later, or finds no batch, ends the running turn at its own time instead,
   and begins one with no request but its own.
   */
  lemma TakenOrNext(binding: bool, lastStopMs: Option<nat>, recs: seq<Record>, rec: Record)
    ensures var t, batched := Run(Init(binding, lastStopMs), recs).t, BatchedAt(Init(binding, lastStopMs), recs);
            var e := Apply(t, rec);
            && (Rebinds(e.calls) <==> TakenWithTheOneBefore(t, batched, rec) && t.CurrentRequests() != [])
            && (IsMessage(rec) && Unknown(t, rec.submit.promptId.value) ==>
                  if TakenWithTheOneBefore(t, batched, rec) then
                    && (forall c <- e.calls :: !c.TurnEnded?)
                    && e.state.current.Some? && t.CurrentRequests() <= e.state.CurrentRequests()
                    && e.state.current.value.turn.startedAtMs == t.current.value.turn.startedAtMs
                  else
                    && (t.current.Some? ==> TurnEnded(t.current.value.turn, NextEnd(rec.submit.atMs)) in e.calls)
                    && e.state.current.Some? && e.state.current.value.turn.startedAtMs == rec.submit.atMs
                    && forall r <- e.state.CurrentRequests() :: Some(r) == rec.submit.requestId)
  {
    var t, batched := Run(Init(binding, lastStopMs), recs).t, BatchedAt(Init(binding, lastStopMs), recs);
    RunKeeps(binding, lastStopMs, recs);
    DeadlineOverRuns(binding, lastStopMs, recs);
    hide Run, Init, BatchedAt, Apply;
    RebindingIsTaking(t, rec, batched);
    if IsMessage(rec) && Unknown(t, rec.submit.promptId.value) {
      TakenOrBegun(t, batched, rec);
    }
    hide *;
  }

  // Over runs: when turns began that nothing announced.

  /** The turns that calls tell the end of. */
  function EndsOf(calls: seq<Call>): seq<Ended> {
    if calls == [] then []
    else
      var last := calls[|calls| - 1];
      EndsOf(calls[..|calls| - 1]) + if last.TurnEnded? then [Ended(last.turn, last.end)] else []
  }

  lemma {:induction false} EndsOfConcat(a: seq<Call>, b: seq<Call>)
    ensures EndsOf(a + b) == EndsOf(a) + EndsOf(b)
  {
    if b == [] {
      Nothing(a);
      Nothing(EndsOf(a));
    } else {
      var init, last := b[..|b| - 1], b[|b| - 1];
      EndsOfConcat(a, init);
      assert (a + b)[..|a + b| - 1] == a + init;
      Assoc(EndsOf(a), EndsOf(init), if last.TurnEnded? then [Ended(last.turn, last.end)] else []);
    }
  }

  lemma {:induction false} EndsOfNone(calls: seq<Call>)
    requires forall c <- calls :: !c.TurnEnded?
    ensures EndsOf(calls) == []
  {
    if calls != [] {
      EndsOfNone(calls[..|calls| - 1]);
    }
  }

  lemma {:induction false} NotedEnds(h: History, calls: seq<Call>)
    ensures Noted(h, calls).ends == h.ends + EndsOf(calls)
  {
    if calls == [] {
      Nothing(h.ends);
    } else {
      var init, last := calls[..|calls| - 1], calls[|calls| - 1];
      assert calls == init + [last];
      NotedConcat(h, init, [last]);
      assert Noted(Noted(h, init), [last]) == Note(Noted(h, init), last);
      NotedEnds(h, init);
      Assoc(h.ends, EndsOf(init), if last.TurnEnded? then [Ended(last.turn, last.end)] else []);
      hide Noted;
    }
  }

  /** When the turn began that began last, if any did. */
  function LastBegan(t: Tracker, ends: seq<Ended>): Option<nat> {
    if t.current.Some? then Some(t.current.value.turn.startedAtMs)
    else if ends != [] then Some(ends[|ends| - 1].turn.startedAtMs)
    else None
  }

  /** When the turn ended that a Stop or a failure ended last, or what the files said of that at the start. */
  function LastStopped(ends: seq<Ended>, atStart: Option<nat>): Option<nat> {
    if ends == [] then atStart
    else
      var end := ends[|ends| - 1].end;
      if end.StopEnd? || end.FailureEnd? then Some(end.AtMs()) else LastStopped(ends[..|ends| - 1], atStart)
  }

  /** The tracker's two clocks tell what the turns reported so far do. */
  ghost predicate Clocks(t: Tracker, ends: seq<Ended>, atStart: Option<nat>) {
    t.lastStartMs == LastBegan(t, ends) && t.lastEndMs == LastStopped(ends, atStart)
  }

  lemma LastStoppedMore(ends: seq<Ended>, e: Ended, atStart: Option<nat>)
    ensures LastStopped(ends + [e], atStart) ==
            if e.end.StopEnd? || e.end.FailureEnd? then Some(e.end.AtMs()) else LastStopped(ends, atStart)
  {
    assert (ends + [e])[..|ends|] == ends;
  }

  /** Calls that tell of no end before the running turn's, nor after it. */
  lemma EndsAround(t: Tracker, end: TurnEnd, a: seq<Call>, b: seq<Call>)
    requires (forall c <- a :: !c.TurnEnded?) && forall c <- b :: !c.TurnEnded?
    ensures EndsOf(a + EndTold(t, end) + b) == EndedBy(t, end)
  {
    EndsOfNone(a);
    EndsOfNone(b);
    EndsOfConcat(a, EndTold(t, end));
    EndsOfConcat(a + EndTold(t, end), b);
    EndsOfEnd(t, end);
    Nothing(EndedBy(t, end));
    hide EndsOf, EndTold, EndedBy;
  }

  lemma EndsOfEnd(t: Tracker, end: TurnEnd)
    ensures EndsOf(EndTold(t, end)) == EndedBy(t, end)
  {
    var calls := EndTold(t, end);
    if t.current.Some? {
      var rest := calls[1..];
      assert calls == [calls[0]] + rest && [calls[0]][..0] == [];
      EndsOfConcat([calls[0]], rest);
      EndsOfNone(rest);
    }
  }

  /** The running turn ends by the next one's beginning, or none runs, and one begins at `since`. */
  lemma NextClocks(t: Tracker, u: Tracker, ends: seq<Ended>, atStart: Option<nat>, since: nat)
    requires Clocks(t, ends, atStart) && u.current.Some? && u.current.value.turn.startedAtMs == since
    requires u.lastStartMs == Some(since) && u.lastEndMs == t.lastEndMs
    ensures Clocks(u, ends + EndedBy(t, NextEnd(since)), atStart)
  {
    Nothing(ends);
    if t.current.Some? {
      LastStoppedMore(ends, Ended(t.current.value.turn, NextEnd(since)), atStart);
    }
  }

  lemma StopClocks(t: Tracker, u: Tracker, ends: seq<Ended>, atStart: Option<nat>, e: Ended)
    requires t.current.Some? ==> e.turn.startedAtMs == t.current.value.turn.startedAtMs
    requires u.current.None? && u.lastStartMs == Some(e.turn.startedAtMs) && u.lastEndMs == Some(e.end.AtMs())
    requires e.end.StopEnd? || e.end.FailureEnd?
    ensures Clocks(u, ends + [e], atStart)
  {
    LastStoppedMore(ends, e, atStart);
  }

  /** A record that ends nothing and begins nothing leaves the clocks as they were. */
  lemma SameClocks(t: Tracker, u: Tracker, calls: seq<Call>, ends: seq<Ended>, atStart: Option<nat>)
    requires Clocks(t, ends, atStart) && u.lastStartMs == t.lastStartMs && u.lastEndMs == t.lastEndMs
    requires t.current.Some? == u.current.Some?
    requires t.current.Some? ==> u.current.value.turn.startedAtMs == t.current.value.turn.startedAtMs
    requires forall c <- calls :: !c.TurnEnded?
    ensures Clocks(u, ends + EndsOf(calls), atStart)
  {
    EndsOfNone(calls);
    Nothing(ends);
  }

  lemma MessageClocks(t: Tracker, rec: Record, ends: seq<Ended>, atStart: Option<nat>)
    requires Flat(t) && WellKinded(t) && Taken(t, rec) && Clocks(t, ends, atStart)
    ensures var e := Apply(t, rec); Clocks(e.state, ends + EndsOf(e.calls), atStart)
  {
    var submit, isOpen, session, at := rec.submit, rec.isOpen, rec.session, rec.submit.atMs;
    var id, e := t.Resolve(submit.promptId.value), Apply(t, rec);
    hide Apply, EndTold;
    if t.IsCurrent(id) {
      MessageFolds(t, submit, isOpen, session);
      SameClocks(t, e.state, e.calls, ends, atStart);
    } else if InBatch(t, at) {
      MessageJoins(t, submit, isOpen, session);
      SameClocks(t, e.state, e.calls, ends, atStart);
    } else {
      MessageBegins(t, submit, isOpen, session);
      var turn := Turn(id, Served, at, SessionOf(submit, session), WithOwn(t, submit, isOpen, []), None);
      EndsAround(t, NextEnd(at), BindingTold(t), StartTold(t, submit, isOpen, turn, session));
      NextClocks(t, e.state, ends, atStart, at);
    }
  }

  lemma SubmitClocks(t: Tracker, rec: Record, ends: seq<Ended>, atStart: Option<nat>)
    requires Flat(t) && WellKinded(t) && rec.SubmitSeen? && Clocks(t, ends, atStart)
    ensures var e := Apply(t, rec); Clocks(e.state, ends + EndsOf(e.calls), atStart)
  {
    var submit, e := rec.submit, Apply(t, rec);
    hide Apply, EndTold, Clocks;
    if submit.promptId.None? {
      SubmitWithoutId(t, submit, rec.isOpen, rec.session);
      SameClocks(t, e.state, e.calls, ends, atStart);
    } else if t.Resolve(submit.promptId.value) in t.ended.vals {
      SubmitOfEnded(t, submit, rec.isOpen, rec.session);
      SameClocks(t, e.state, e.calls, ends, atStart);
    } else if submit.requestId.Some? {
      MessageClocks(t, rec, ends, atStart);
    } else if t.IsCurrent(t.Resolve(submit.promptId.value)) {
      TypedContinues(t, submit, rec.isOpen, rec.session);
      SameClocks(t, e.state, e.calls, ends, atStart);
    } else {
      TypedBegins(t, submit, rec.isOpen, rec.session);
      var local := LocalNamed(t.Resolve(submit.promptId.value), SessionOf(submit, rec.session));
      EndsAround(t, NextEnd(submit.atMs), BindingTold(t), [LocalTurnStarted(local, submit.atMs)]);
      NextClocks(t, e.state, ends, atStart, submit.atMs);
    }
  }

  lemma CallClocks(t: Tracker, rec: Record, ends: seq<Ended>, atStart: Option<nat>)
    requires Flat(t) && rec.ActivitySeen? && Clocks(t, ends, atStart)
    ensures var e := Apply(t, rec); Clocks(e.state, ends + EndsOf(e.calls), atStart)
  {
    var e, activity := Apply(t, rec), rec.activity;
    hide Apply, EndTold, Clocks;
    if t.binding && activity.promptId.Some? && Unknown(t, activity.promptId.value) {
      CallBegins(t, activity, rec.session);
      var since := Began(t.lastStartMs, t.lastEndMs, activity.atMs);
      var begins := [LocalTurnStarted(LocalNamed(t.Resolve(activity.promptId.value), rec.session), since)];
      EndsAround(t, NextEnd(since), [], begins);
      Nothing(EndTold(t, NextEnd(since)));
      NextClocks(t, e.state, ends, atStart, since);
    } else {
      CallContinues(t, activity, rec.session);
      SameClocks(t, e.state, e.calls, ends, atStart);
    }
  }

  lemma UnknownEndClocks(t: Tracker, rec: Record, ends: seq<Ended>, atStart: Option<nat>)
    requires IsEnd(rec) && t.binding && IdIn(rec).Some? && Unknown(t, IdIn(rec).value) && Clocks(t, ends, atStart)
    ensures var e := Apply(t, rec); Clocks(e.state, ends + EndsOf(e.calls), atStart)
  {
    var e, id, end := Apply(t, rec), t.Resolve(IdIn(rec).value), EndIn(rec);
    var since := Began(t.lastStartMs, t.lastEndMs, end.AtMs());
    var local := LocalNamed(id, EndsSession(rec));
    var turn := Turn(id, Local, since, EndsSession(rec), [], Some(local));
    UnknownEnds(t, rec);
    EndsAround(t, NextEnd(since), [], [LocalTurnStarted(local, since)]);
    Nothing(EndTold(t, NextEnd(since)));
    var begun := t.(current := Some(OpenTurn(turn, None)), lastStartMs := Some(since));
    assert EndTold(begun, end) == [TurnEnded(turn, end), LocalTurnEnded(local, rec.FailureSeen?, end.AtMs())];
    EndsOfEnd(begun, end);
    EndsOfConcat(EndTold(t, NextEnd(since)) + [LocalTurnStarted(local, since)], EndTold(begun, end));
    Assoc(ends, EndedBy(t, NextEnd(since)), [Ended(turn, end)]);
    hide Apply, EndTold, EndsOf, Clocks, Began;
    StopClocks(begun, e.state, ends + EndedBy(t, NextEnd(since)), atStart, Ended(turn, end));
  }

  lemma EndClocks(t: Tracker, rec: Record, ends: seq<Ended>, atStart: Option<nat>)
    requires Flat(t) && IsEnd(rec) && Clocks(t, ends, atStart)
    ensures var e := Apply(t, rec); Clocks(e.state, ends + EndsOf(e.calls), atStart)
  {
    var e, end := Apply(t, rec), EndIn(rec);
    if t.binding && IdIn(rec).Some? && Unknown(t, IdIn(rec).value) {
      UnknownEndClocks(t, rec, ends, atStart);
      hide Apply;
    } else if t.binding && IdIn(rec).Some? && t.IsCurrent(t.Resolve(IdIn(rec).value))
              && t.current.value.turn.startedAtMs < end.AtMs() {
      assert t.lastStartMs == Some(t.current.value.turn.startedAtMs);
      OwnEndEnds(t, rec);
      EndsOfEnd(t, end);
      hide Apply, EndTold, EndsOf, Clocks;
      StopClocks(t, e.state, ends, atStart, Ended(t.current.value.turn, end));
    } else {
      LateEndIsIgnored(t, rec);
      hide Apply, Clocks;
      SameClocks(t, e.state, e.calls, ends, atStart);
    }
  }

  lemma RecordClocks(t: Tracker, rec: Record, ends: seq<Ended>, atStart: Option<nat>)
    requires Flat(t) && WellKinded(t) && Clocks(t, ends, atStart)
    ensures var e := Apply(t, rec); Clocks(e.state, ends + EndsOf(e.calls), atStart)
  {
    match rec
    case SubmitSeen(_, _, _) => SubmitClocks(t, rec, ends, atStart); hide Apply;
    case ActivitySeen(_, _) => CallClocks(t, rec, ends, atStart); hide Apply;
    case StopSeen(_, _) => EndClocks(t, rec, ends, atStart); hide Apply;
    case FailureSeen(_, _) => EndClocks(t, rec, ends, atStart); hide Apply;
    case Forgotten(_) =>
      SameClocks(t, Apply(t, rec).state, [], ends, atStart);
      hide Clocks;
  }

  lemma {:induction false} ClocksOverRuns(binding: bool, lastStopMs: Option<nat>, recs: seq<Record>)
    ensures var f := Run(Init(binding, lastStopMs), recs); Clocks(f.t, f.h.ends, lastStopMs)
  {
    var t := Init(binding, lastStopMs);
    if recs != [] {
      var init, rec := recs[..|recs| - 1], recs[|recs| - 1];
      var f := Run(t, init);
      ClocksOverRuns(binding, lastStopMs, init);
      RunKeeps(binding, lastStopMs, init);
      hide Apply, Clocks, Flat, WellKinded, Tells;
      RecordClocks(f.t, rec, f.h.ends, lastStopMs);
      NotedEnds(f.h, Apply(f.t, rec).calls);
    }
  }

  /**
   Over any run, in whatever order records come: a turn that a tool call, a
   Stop or a failure is the first to tell of began, as a local one, when the
   turn before it was stopped, if that is past and no turn began since, and
   else at the record; a Stop or failure ends it right away.
   */
  lemma ShownFrom(binding: bool, lastStopMs: Option<nat>, recs: seq<Record>, rec: Record)
    requires Run(Init(binding, lastStopMs), recs).t.binding
    requires rec.ActivitySeen? || IsEnd(rec)
    requires var id := if rec.ActivitySeen? then rec.activity.promptId else IdIn(rec);
             id.Some? && Unknown(Run(Init(binding, lastStopMs), recs).t, id.value)
    ensures var f := Run(Init(binding, lastStopMs), recs);
            var at := rec.AtMs().value;
            var since := Began(LastBegan(f.t, f.h.ends), LastStopped(f.h.ends, lastStopMs), at);
            var id := f.t.Resolve((if rec.ActivitySeen? then rec.activity.promptId else IdIn(rec)).value);
            var session := if rec.ActivitySeen? then rec.session else EndsSession(rec);
            var turn := Turn(id, Local, since, session, [], Some(LocalNamed(id, session)));
            var e := Apply(f.t, rec);
            && EndTold(f.t, NextEnd(since)) <= e.calls
            && LocalTurnStarted(LocalNamed(id, session), since) in e.calls
            && if IsEnd(rec) then TurnEnded(turn, EndIn(rec)) in e.calls && e.state.current.None?
               else e.state.current == Some(OpenTurn(turn, None))
  {
    var t := Run(Init(binding, lastStopMs), recs).t;
    ClocksOverRuns(binding, lastStopMs, recs);
    hide Run, Init, Apply, LastBegan, LastStopped, EndTold, Began;
    if rec.ActivitySeen? {
      CallBegins(t, rec.activity, rec.session);
    } else {
      UnknownEnds(t, rec);
    }
  }
}
