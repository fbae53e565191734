/**
 How each open request ends, said of the turns' ends, the Stops counted and
 the clock alone: by its own turn's end, in the event that brings it; by the
 grace rule, exactly when a Stop was counted since its delivery, none of the
 tool calls is later than the last Stop, and the grace since that is over; or
 not at all.
 */
module Endings {
  import opened Records
  import opened OrderedMaps
  import opened Turns
  import opened TurnHistory
  import opened TurnRules
  import opened TurnLaws
  import opened Channels
  import opened Agreement
  import opened AgreementRuns
  import opened Outcomes
  import opened ForgottenTurns
  import opened ServerLedger
  import Ledgers

  // By the turn's own end.

  /** What the end of its own turn has the ledger say of an open request, but for a Stop that left background work. */
  ghost predicate JudgedAsEnded(judged: Option<Ledgers.Ending>, end: TurnEnd) {
    match end
    case NextEnd(_) => judged == Some(Ledgers.Ending(Ledgers.AnotherTurnBegan, None, None))
    case FailureEnd(_, error, details) =>
      judged == Some(Ledgers.Ending(Ledgers.ItsTurnFailed, None, Some(Ledgers.TurnFailure(error, details))))
    case StopEnd(stop) =>
      stop.background == Some(false) ==> judged == Some(Ledgers.Ending(Ledgers.ItsTurnEnded, stop.finalText, None))
    case ShutdownEnd(_) => true
  }

  /** Once its turn ended, an open request is judged by how that turn ended, from then on. */
  lemma JudgedByItsEnd(w: World, r: RequestId, view: Ledgers.TurnView, nowMs: nat, graceMs: nat, j: nat)
    requires Agreed(w) && w.s.tracker.binding && w.s.desk.IsOpen(r)
    requires j < |w.h.ends| && r in w.h.ends[j].turn.requests
    ensures JudgedAsEnded(JudgedNow(w.s.desk, r, view, nowMs, graceMs), w.h.ends[j].end)
  {
    hide Agreed, JudgedNow, VerdictFrom, GraceRule;
    JudgementByTurn(w, r, view, nowMs, graceMs);
    VerdictIsOwn(w.h.ends, j);
  }

  /** How that leaves the request: with an error, or with the Stop's text on its way; one being answered is spared. */
  ghost predicate EndedAs(before: Pending, after: Pending, end: TurnEnd) {
    if before.answering.Some? then after == before
    else
      match end
      case NextEnd(_) => after == Pending(true, None)
      case FailureEnd(_, _, _) => after == Pending(true, None)
      case StopEnd(stop) =>
        stop.background == Some(false) ==>
          after == if stop.finalText.Some? then Pending(false, stop.finalText) else Pending(true, None)
      case ShutdownEnd(_) => true
  }

  lemma SomeJudgement(judged: Option<Ledgers.Ending>, end: TurnEnd)
    requires JudgedAsEnded(judged, end) && !end.ShutdownEnd?
    requires !(end.StopEnd? && end.stop.background != Some(false))
    ensures judged.Some?
  {}

  lemma JudgedIsEnded(before: Pending, judged: Option<Ledgers.Ending>, end: TurnEnd)
    requires !before.settled && judged.Some? && JudgedAsEnded(judged, end)
    ensures EndedAs(before, EndPending(before, judged.value), end)
  {}

  lemma {:induction false} EndIsTold(calls: seq<Call>, c: Call)
    requires c in calls && c.TurnEnded?
    ensures Ended(c.turn, c.end) in EndsOf(calls)
  {
    if c != calls[|calls| - 1] {
      EndIsTold(calls[..|calls| - 1], c);
    }
  }

  /** Ending the unanswered treats an open request of a turn that ended by that turn's end. */
  lemma EndTreats(w: World, r: RequestId, view: Ledgers.TurnView, nowMs: nat, graceMs: nat, e: Ended)
    requires Agreed(w) && w.s.tracker.binding && w.s.desk.IsOpen(r) && e in w.h.ends && r in e.turn.requests
    requires !(e.end.StopEnd? && e.end.stop.background != Some(false)) && !e.end.ShutdownEnd?
    ensures var n := EndUnanswered(w.s.desk, view, nowMs, graceMs).pending;
            r in n.vals && EndedAs(w.s.desk.pending.vals[r], n.vals[r], e.end)
  {
    hide Agreed, EndUnanswered, EndPending, JudgedAsEnded, EndedAs, JudgedNow;
    var j: nat :| j < |w.h.ends| && w.h.ends[j] == e;
    JudgedByItsEnd(w, r, view, nowMs, graceMs, j);
    BooksAreShared(w);
    EndsTheJudged(w.s.desk, view, nowMs, graceMs, r);
    var judged := JudgedNow(w.s.desk, r, view, nowMs, graceMs);
    SomeJudgement(judged, e.end);
    JudgedIsEnded(w.s.desk.pending.vals[r], judged, e.end);
  }

  /** A record that ends the running turn, told after the ledger counted what it counts. */
  lemma RecordEnds(w: World, rec: Record, view: Ledgers.TurnView, nowMs: nat, graceMs: nat, r: RequestId, end: TurnEnd)
    requires Agreed(w) && w.s.desk.IsOpen(r) && r in w.s.tracker.CurrentRequests() && !rec.Forgotten?
    requires rec.SubmitSeen? ==> rec == SubmitHeard(w.s, rec.submit, rec.session)
    requires !(end.StopEnd? && end.stop.background != Some(false)) && !end.ShutdownEnd?
    requires TurnEnded(w.s.tracker.current.value.turn, end) in Apply(w.s.tracker, rec).calls
    requires Apply(w.s.tracker, rec).state.binding
    ensures var n := Heard(w.s, rec, view, nowMs, graceMs).desk.pending;
            r in n.vals && EndedAs(w.s.desk.pending.vals[r], n.vals[r], end)
  {
    var turn, calls := w.s.tracker.current.value.turn, Apply(w.s.tracker, rec).calls;
    var n := World(Tell(w.s, rec), Noted(w.h, calls), w.issued);
    hide Joint, Noted, OnCalls, Apply, EndUnanswered, EndedAs, EndsOf, SubmitHeard;
    TellAgrees(w.s, w.h, w.issued, rec);
    NotedEnds(w.h, calls);
    EndIsTold(calls, TurnEnded(turn, end));
    OnCallsKeepPending(w.s.desk, calls);
    hide Tell;
    EndTreats(n, r, view, nowMs, graceMs, Ended(turn, end));
  }

  /** The event tells of a turn the tracker does not know, and no open batch takes it in. */
  predicate BeginsAnother(t: Tracker, event: Event) {
    match event
    case PromptSubmitted(submit, _, _, _) =>
      && submit.promptId.Some? && Unknown(t, submit.promptId.value)
      && !(submit.requestId.Some? && InBatch(t, submit.atMs))
    case ToolCalled(activity, _, _, _) => activity.promptId.Some? && Unknown(t, activity.promptId.value)
    case TurnStopped(stop, _, _, _) => stop.promptId.Some? && Unknown(t, stop.promptId.value)
    case TurnFailed(failure, _, _, _) => failure.promptId.Some? && Unknown(t, failure.promptId.value)
    case _ => false
  }

  /** What the tracker tells of such a record: the running turn ended by the next. */
  lemma AnotherIsTold(s: Server, event: Event)
    requires s.tracker.binding && s.tracker.current.Some? && BeginsAnother(s.tracker, event)
    ensures var rec := Shown(s, event);
            && rec.Some? && !rec.value.Forgotten? && Apply(s.tracker, rec.value).state.binding
            && exists at: nat ::
                 TurnEnded(s.tracker.current.value.turn, NextEnd(at)) in Apply(s.tracker, rec.value).calls
  {
    var t, rec := s.tracker, Shown(s, event).value;
    hide Apply, Flat;
    match event
    case PromptSubmitted(submit, session, _, _) =>
      if submit.requestId.Some? {
        MessageBegins(t, submit, rec.isOpen, session);
      } else {
        TypedBegins(t, submit, rec.isOpen, session);
      }
      assert TurnEnded(t.current.value.turn, NextEnd(submit.atMs)) in Apply(t, rec).calls;
    case ToolCalled(activity, session, _, _) =>
      CallBegins(t, activity, session);
      var since := Began(t.lastStartMs, t.lastEndMs, activity.atMs);
      assert TurnEnded(t.current.value.turn, NextEnd(since)) in Apply(t, rec).calls;
    case TurnStopped(_, _, _, _) => UnknownEndIsTold(t, rec);
    case TurnFailed(_, _, _, _) => UnknownEndIsTold(t, rec);
  }

  lemma UnknownEndIsTold(t: Tracker, rec: Record)
    requires IsEnd(rec) && t.binding && IdIn(rec).Some? && Unknown(t, IdIn(rec).value) && t.current.Some?
    ensures Apply(t, rec).state.binding
    ensures exists at: nat :: TurnEnded(t.current.value.turn, NextEnd(at)) in Apply(t, rec).calls
  {
    hide Apply;
    UnknownEnds(t, rec);
    var since := Began(t.lastStartMs, t.lastEndMs, EndIn(rec).AtMs());
    hide Began;
    assert EndTold(t, NextEnd(since))[0] == TurnEnded(t.current.value.turn, NextEnd(since));
    assert TurnEnded(t.current.value.turn, NextEnd(since)) in Apply(t, rec).calls;
  }

  /**
   The event that tells of the next turn, whatever it is, ends every open
   request of the turn that ran with an error, unless it was being answered.
   */
  lemma NextAnswers(w: World, event: Event, graceMs: nat, r: RequestId)
    requires Agreed(w) && w.s.desk.IsOpen(r) && r in w.s.tracker.CurrentRequests() && w.s.tracker.binding
    requires BeginsAnother(w.s.tracker, event)
    ensures var before, after := w.s.desk.pending.vals[r], Next(w.s, event, graceMs).desk.pending;
            && r in after.vals
            && after.vals[r] == if before.answering.Some? then before else Pending(true, None)
  {
    AnotherIsTold(w.s, event);
    var rec := Shown(w.s, event).value;
    var at: nat :| TurnEnded(w.s.tracker.current.value.turn, NextEnd(at)) in Apply(w.s.tracker, rec).calls;
    hide Joint, Apply, Heard, Ledgers.ObserveStop, Unknown, InBatch;
    match event
    case PromptSubmitted(submit, session, view, nowMs) => RecordEnds(w, rec, view, nowMs, graceMs, r, NextEnd(at));
    case ToolCalled(activity, session, view, nowMs) => RecordEnds(w, rec, view, nowMs, graceMs, r, NextEnd(at));
    case TurnStopped(stop, session, view, nowMs) =>
      CountedRecordEnds(w, Ledgers.TurnStop(stop, None), rec, view, nowMs, graceMs, r, NextEnd(at));
    case TurnFailed(failure, session, view, nowMs) =>
      CountedRecordEnds(w, Ledgers.FailureAsStop(failure), rec, view, nowMs, graceMs, r, NextEnd(at));
  }

  lemma CountedRecordEnds(w: World, stop: Ledgers.TurnStop, rec: Record, view: Ledgers.TurnView, nowMs: nat,
                          graceMs: nat, r: RequestId, end: TurnEnd)
    requires Agreed(w) && w.s.desk.IsOpen(r) && r in w.s.tracker.CurrentRequests() && IsEnd(rec)
    requires !(end.StopEnd? && end.stop.background != Some(false)) && !end.ShutdownEnd?
    requires TurnEnded(w.s.tracker.current.value.turn, end) in Apply(w.s.tracker, rec).calls
    requires Apply(w.s.tracker, rec).state.binding
    ensures var n := Heard(Observed(w.s, stop), rec, view, nowMs, graceMs).desk.pending;
            r in n.vals && EndedAs(w.s.desk.pending.vals[r], n.vals[r], end)
  {
    hide Joint, Apply, Heard, Ledgers.ObserveStop, EndedAs;
    ObservedAgrees(w.s, w.h, w.issued, stop);
    RecordEnds(World(Observed(w.s, stop), w.h, w.issued), rec, view, nowMs, graceMs, r, end);
  }

  /** A turn's end reaches the open deliveries bound to that turn and not ended yet, no other, and no other field. */
  lemma EndReachesItsOwn(k: Desk, turn: Turn, end: TurnEnd, r: RequestId)
    requires r in k.ledger.deliveries.vals
    ensures var n := OnCall(k, TurnEnded(turn, end));
            var d := k.ledger.deliveries.vals[r];
            && n.pending == k.pending && r in n.ledger.deliveries.vals
            && var e := n.ledger.deliveries.vals[r];
               && (!(k.IsOpen(r) && d.boundTo == Some(turn.promptId) && d.ended.None?) || end.ShutdownEnd? ==> e == d)
               && e == d.(ended := e.ended, graced := e.graced)
               && (e != d ==> if end.StopEnd? && end.stop.background != Some(false) then e.ended.None? && e.graced
                              else JudgedAsEnded(e.ended, end) && e.ended.Some? && e.graced == d.graced)
  {}

  // By the grace rule.

  /** The time of the last Stop counted, once the one that `view` shows is. */
  function LastStopAt(l: Ledger, view: Ledgers.TurnView): Option<nat> {
    if ShowsNewer(l, view) then Some(view.stop.value.atMs)
    else if l.lastStop.Some? then Some(l.lastStop.value.stop.atMs)
    else None
  }

  /** `view` shows a Stop later than the last one counted. */
  predicate ShowsNewer(l: Ledger, view: Ledgers.TurnView) {
    view.stop.Some? && (l.lastStop.None? || l.lastStop.value.stop.atMs < view.stop.value.atMs)
  }

  /** A Stop was counted after the delivery, the one that `view` shows included. */
  predicate StoppedSince(l: Ledger, d: Delivery, view: Ledgers.TurnView) {
    d.stopsBefore < l.stops || ShowsNewer(l, view)
  }

  /** The first of those. */
  function FirstStopAfter(l: Ledger, d: Delivery, view: Ledgers.TurnView): Option<Ledgers.TurnStop> {
    if d.stopsBefore < l.stops then d.firstStop
    else if ShowsNewer(l, view) then Some(Ledgers.TurnStop(view.stop.value, None))
    else None
  }

  /** A tool call later than the last Stop counted shows that a turn began since. */
  predicate CalledSince(l: Ledger, view: Ledgers.TurnView) {
    view.activity.Some? && LastStopAt(l, view).Some? && LastStopAt(l, view).value < view.activity.value.atMs
  }

  /** The delivery is to be ended for what its turn did: by ids the turn's end said so, else its first Stop does. */
  predicate HasVerdict(l: Ledger, d: Delivery, view: Ledgers.TurnView) {
    if l.byPromptId then d.ended.Some?
    else
      var first := FirstStopAfter(l, d, view);
      && d.startsTurn && first.Some?
      && first.value.stop.background == Some(false) && d.atMs < first.value.stop.atMs
  }

  /** In every reachable state `firstStop` is there exactly when a Stop was counted since the delivery. */
  ghost predicate SeesItsFirst(l: Ledger) {
    && (l.lastStop.Some? <==> 0 < l.stops)
    && forall r <- l.deliveries.vals ::
      var d := l.deliveries.vals[r]; d.stopsBefore <= l.stops && (d.firstStop.Some? <==> d.stopsBefore < l.stops)
  }

  lemma ReachSeesItsFirst(binding: bool, lastStopMs: Option<nat>, events: seq<Event>, graceMs: nat)
    ensures SeesItsFirst(Reach(binding, lastStopMs, events, graceMs).s.desk.ledger)
  {
    ServerRunsLedger(binding, lastStopMs, events, graceMs);
    var ops := OpsOfRun(binding, lastStopMs, events, graceMs);
    LedgerHistory.RunCounts(binding, ops);
    var k := LedgerHistory.Run(binding, ops);
    hide Reach, OpsOfRun, LedgerHistory.Run;
    forall r <- k.l.deliveries.vals
      ensures var d := k.l.deliveries.vals[r];
              d.stopsBefore <= k.l.stops && (d.firstStop.Some? <==> d.stopsBefore < k.l.stops) {
      assert LedgerHistory.SawFirst(k.l.deliveries.vals[r], k.p.counted);
    }
  }

  /** What the ledger says of an open request without a verdict. */
  function LeftToGrace(w: World, d: Delivery, r: RequestId, view: Ledgers.TurnView, nowMs: nat, graceMs: nat)
    : Option<Ledgers.Ending>
  {
    var l, last := w.s.desk.ledger, LastStopAt(w.s.desk.ledger, view);
    if && StoppedSince(l, d, view) && !CalledSince(l, view)
       && last.Some? && nowMs - last.value >= graceMs
       && !(w.s.tracker.binding && r in w.s.tracker.CurrentRequests())
    then Some(Ledgers.Ending(Ledgers.NoTurnStarted, None, None)) else None
  }

  /** What the ledger says of one with a verdict, in the fallback: the first Stop's text, or its failure. */
  function ByFirstStop(first: Ledgers.TurnStop): Ledgers.Ending {
    if first.failure.Some? then Ledgers.Ending(Ledgers.ItsTurnFailed, None, first.failure)
    else Ledgers.Ending(Ledgers.ItsTurnEnded, first.stop.finalText, None)
  }

  lemma ObservedDelivery(l: Ledger, r: RequestId, view: Ledgers.TurnView)
    requires r in l.deliveries.vals && SeesItsFirst(l)
    ensures var o, d := Ledgers.ObserveStop(l, Ledgers.AsStop(view.stop)), l.deliveries.vals[r];
            && r in o.deliveries.vals && o.byPromptId == l.byPromptId
            && o.deliveries.vals[r] == d.(firstStop := FirstStopAfter(l, d, view))
            && (o.lastStop.Some? <==> LastStopAt(l, view).Some?)
            && (o.lastStop.Some? ==> o.lastStop.value.stop.atMs == LastStopAt(l, view).value)
            && (FirstStopAfter(l, d, view).Some? <==> StoppedSince(l, d, view))
  {}

  /** Of the requests without a verdict, the running turn's are the ones bound and not left to the grace rule. */
  lemma WithoutVerdict(w: World, r: RequestId)
    requires Agreed(w) && w.s.desk.IsOpen(r) && r in w.s.desk.ledger.deliveries.vals
    ensures var d := w.s.desk.ledger.deliveries.vals[r];
            d.ended.None? ==> (r in w.s.tracker.CurrentRequests() <==> d.boundTo.Some? && !d.graced)
  {
    hide Kept, Judged, SameBooks;
    assert AgreeOn(w.s.tracker, w.s.desk.ledger.deliveries.vals[r], r);
  }

  lemma JudgedByIds(w: World, r: RequestId, view: Ledgers.TurnView, nowMs: nat, graceMs: nat)
    requires Agreed(w) && SeesItsFirst(w.s.desk.ledger) && w.s.desk.IsOpen(r) && w.s.tracker.binding
    requires r in w.s.desk.ledger.deliveries.vals
    ensures var l, d := w.s.desk.ledger, w.s.desk.ledger.deliveries.vals[r];
            JudgedNow(w.s.desk, r, view, nowMs, graceMs) ==
            if HasVerdict(l, d, view) then d.ended else LeftToGrace(w, d, r, view, nowMs, graceMs)
  {
    BooksAreShared(w);
    WithoutVerdict(w, r);
    ObservedDelivery(w.s.desk.ledger, r, view);
    hide Agreed, SeesItsFirst, Ledgers.ObserveStop, ShowsNewer, LastStopAt, FirstStopAfter, StoppedSince;
  }

  lemma JudgedInFallback(w: World, r: RequestId, view: Ledgers.TurnView, nowMs: nat, graceMs: nat)
    requires Agreed(w) && SeesItsFirst(w.s.desk.ledger) && w.s.desk.IsOpen(r) && !w.s.tracker.binding
    requires r in w.s.desk.ledger.deliveries.vals
    ensures var l, d := w.s.desk.ledger, w.s.desk.ledger.deliveries.vals[r];
            JudgedNow(w.s.desk, r, view, nowMs, graceMs) ==
            if HasVerdict(l, d, view) then Some(ByFirstStop(FirstStopAfter(l, d, view).value))
            else LeftToGrace(w, d, r, view, nowMs, graceMs)
  {
    BooksAreShared(w);
    ObservedDelivery(w.s.desk.ledger, r, view);
    hide Agreed, SeesItsFirst, Ledgers.ObserveStop, ShowsNewer, LastStopAt, FirstStopAfter, StoppedSince;
  }

  /** How an open request is judged, in both modes: by its verdict, or else by what the Stops and the clock tell. */
  lemma JudgedByVerdictOrGrace(w: World, r: RequestId, view: Ledgers.TurnView, nowMs: nat, graceMs: nat)
    requires Agreed(w) && SeesItsFirst(w.s.desk.ledger) && w.s.desk.IsOpen(r)
    ensures r in w.s.desk.ledger.deliveries.vals
    ensures var l, d := w.s.desk.ledger, w.s.desk.ledger.deliveries.vals[r];
            JudgedNow(w.s.desk, r, view, nowMs, graceMs) ==
            if !HasVerdict(l, d, view) then LeftToGrace(w, d, r, view, nowMs, graceMs)
            else if l.byPromptId then d.ended
            else Some(ByFirstStop(FirstStopAfter(l, d, view).value))
  {
    BooksAreShared(w);
    hide Agreed, SeesItsFirst, JudgedNow, LeftToGrace;
    if w.s.tracker.binding {
      JudgedByIds(w, r, view, nowMs, graceMs);
    } else {
      JudgedInFallback(w, r, view, nowMs, graceMs);
    }
  }

  /** What becomes of an open request with such a judgement. */
  function EndedBy(before: Pending, judged: Option<Ledgers.Ending>): Pending {
    if before.answering.Some? || judged.None? then before
    else if judged.value.failure.Some? || judged.value.finalText.None? then Pending(true, None)
    else Pending(false, judged.value.finalText)
  }

  lemma EndsAsJudged(k: Desk, view: Ledgers.TurnView, nowMs: nat, graceMs: nat, r: RequestId)
    requires k.IsOpen(r) && k.pending.vals.Keys == k.ledger.deliveries.vals.Keys
    ensures var n := EndUnanswered(k, view, nowMs, graceMs).pending;
            r in n.vals && n.vals[r] == EndedBy(k.pending.vals[r], JudgedNow(k, r, view, nowMs, graceMs))
  {
    hide EndUnanswered, JudgedNow;
    EndsTheJudged(k, view, nowMs, graceMs, r);
  }

  lemma TickEnds(s: Server, view: Ledgers.TurnView, nowMs: nat, graceMs: nat)
    ensures Next(s, Tick(view, nowMs), graceMs) == s.(desk := EndUnanswered(s.desk, view, nowMs, graceMs))
  {
    hide EndUnanswered;
  }

  lemma SparedOrEndedNow(w: World, view: Ledgers.TurnView, nowMs: nat, graceMs: nat, r: RequestId)
    requires Agreed(w) && SeesItsFirst(w.s.desk.ledger) && w.s.desk.IsOpen(r)
    requires r in w.s.desk.ledger.deliveries.vals
    ensures var l, d := w.s.desk.ledger, w.s.desk.ledger.deliveries.vals[r];
            var before, after := w.s.desk.pending.vals[r], EndUnanswered(w.s.desk, view, nowMs, graceMs).pending;
            && r in after.vals
            && (!HasVerdict(l, d, view) ==>
                  after.vals[r] ==
                  if before.answering.None? && LeftToGrace(w, d, r, view, nowMs, graceMs).Some?
                  then Pending(true, None) else before)
            && (HasVerdict(l, d, view) && !l.byPromptId ==>
                  var first := FirstStopAfter(l, d, view).value;
                  after.vals[r] == EndedBy(before, Some(ByFirstStop(first))))
  {
    BooksAreShared(w);
    hide SeesItsFirst, Agreed;
    JudgedByVerdictOrGrace(w, r, view, nowMs, graceMs);
    hide JudgedNow, HasVerdict, EndUnanswered, FirstStopAfter;
    EndsAsJudged(w.s.desk, view, nowMs, graceMs, r);
  }

  /**
   In any reachable state and both modes: a tick ends an open
   request without a verdict exactly when a Stop was counted since its
   delivery, no tool call came after the last Stop, the grace since that is
   over, and the running turn, if turns are followed, is not the request's;
   it does so with an error. Otherwise it leaves the request as it was. One
   with a verdict, in the fallback, ends as the first Stop since has it.
   */
  lemma SparedOrEnded(binding: bool, lastStopMs: Option<nat>, events: seq<Event>, graceMs: nat,
                      view: Ledgers.TurnView, nowMs: nat, r: RequestId)
    requires Possible(binding, lastStopMs, events, graceMs)
    requires Reach(binding, lastStopMs, events, graceMs).s.desk.IsOpen(r)
    ensures r in Reach(binding, lastStopMs, events, graceMs).s.desk.ledger.deliveries.vals
    ensures var w := Reach(binding, lastStopMs, events, graceMs);
            var l, d := w.s.desk.ledger, w.s.desk.ledger.deliveries.vals[r];
            var before, after := w.s.desk.pending.vals[r], Next(w.s, Tick(view, nowMs), graceMs).desk.pending;
            && r in after.vals
            && (!HasVerdict(l, d, view) ==>
                  after.vals[r] ==
                  if before.answering.None? && LeftToGrace(w, d, r, view, nowMs, graceMs).Some?
                  then Pending(true, None) else before)
            && (HasVerdict(l, d, view) && !l.byPromptId ==>
                  var first := FirstStopAfter(l, d, view).value;
                  after.vals[r] == EndedBy(before, Some(ByFirstStop(first))))
  {
    var w := Reach(binding, lastStopMs, events, graceMs);
    ReachAgrees(binding, lastStopMs, events, graceMs);
    ReachSeesItsFirst(binding, lastStopMs, events, graceMs);
    hide *;
    TickEnds(w.s, view, nowMs, graceMs);
    JudgedByVerdictOrGrace(w, r, view, nowMs, graceMs);
    SparedOrEndedNow(w, view, nowMs, graceMs, r);
  }

  /**
   No request is forgotten: in any reachable state, once a Stop was counted
   since an open request was delivered, the grace since the last Stop is
   over with no tool call later than that, and the running turn, if one is
   followed, is not the request's, the next tick ends or answers it.
   */
  lemma NoneForgotten(binding: bool, lastStopMs: Option<nat>, events: seq<Event>, graceMs: nat,
                      view: Ledgers.TurnView, nowMs: nat, r: RequestId)
    requires Possible(binding, lastStopMs, events, graceMs)
    requires var s := Reach(binding, lastStopMs, events, graceMs).s;
             && s.desk.IsOpen(r) && r !in s.tracker.CurrentRequests()
             && (r in s.desk.ledger.deliveries.vals ==>
                 StoppedSince(s.desk.ledger, s.desk.ledger.deliveries.vals[r], view))
             && LastStopAt(s.desk.ledger, view).Some? && nowMs - LastStopAt(s.desk.ledger, view).value >= graceMs
             && !CalledSince(s.desk.ledger, view)
    ensures var s := Reach(binding, lastStopMs, events, graceMs).s;
            var after := Next(s, Tick(view, nowMs), graceMs).desk.pending;
            r in after.vals && (after.vals[r].settled || after.vals[r].answering.Some?)
  {
    var w := Reach(binding, lastStopMs, events, graceMs);
    ReachAgrees(binding, lastStopMs, events, graceMs);
    ReachSeesItsFirst(binding, lastStopMs, events, graceMs);
    hide *;
    TickEnds(w.s, view, nowMs, graceMs);
    LeftIsEnded(w, view, nowMs, graceMs, r);
  }

  lemma LeftIsEnded(w: World, view: Ledgers.TurnView, nowMs: nat, graceMs: nat, r: RequestId)
    requires Agreed(w) && SeesItsFirst(w.s.desk.ledger)
    requires && w.s.desk.IsOpen(r) && r !in w.s.tracker.CurrentRequests()
             && (r in w.s.desk.ledger.deliveries.vals ==>
                   StoppedSince(w.s.desk.ledger, w.s.desk.ledger.deliveries.vals[r], view))
             && LastStopAt(w.s.desk.ledger, view).Some? && nowMs - LastStopAt(w.s.desk.ledger, view).value >= graceMs
             && !CalledSince(w.s.desk.ledger, view)
    ensures var after := EndUnanswered(w.s.desk, view, nowMs, graceMs).pending;
            r in after.vals && (after.vals[r].settled || after.vals[r].answering.Some?)
  {
    hide EndUnanswered, JudgedNow, SeesItsFirst, Agreed, LastStopAt, FirstStopAfter, StoppedSince;
    BooksAreShared(w);
    JudgedByVerdictOrGrace(w, r, view, nowMs, graceMs);
    EndsAsJudged(w.s.desk, view, nowMs, graceMs, r);
  }

  lemma CountingSees(l: Ledger, stop: Ledgers.TurnStop)
    requires SeesItsFirst(l)
    ensures SeesItsFirst(Ledgers.ObserveStop(l, Some(stop)))
  {}

  /** In the fallback the tracker follows nothing and tells nothing of a Stop or a failure. */
  lemma NotFollowed(s: Server, rec: Record)
    requires IsEnd(rec) && !s.tracker.binding
    ensures Tell(s, rec) == s
  {}

  /**
   In the fallback, the first Stop or failure counted since a request was
   delivered that was taken to start a turn ends it right away: a failure
   with an error, a Stop without background work with its text, or, without
   one, an error.
   */
  lemma FallbackEnds(w: World, event: Event, graceMs: nat, r: RequestId)
    requires Agreed(w) && SeesItsFirst(w.s.desk.ledger) && !w.s.tracker.binding && w.s.desk.IsOpen(r)
    requires event.TurnFailed? || (event.TurnStopped? && event.stop.background == Some(false))
    requires r in w.s.desk.ledger.deliveries.vals
    requires var l, d := w.s.desk.ledger, w.s.desk.ledger.deliveries.vals[r];
             var at := if event.TurnFailed? then event.failure.atMs else event.stop.atMs;
             && d.startsTurn && d.stopsBefore == l.stops && d.atMs < at
             && (l.lastStop.Some? ==> l.lastStop.value.stop.atMs < at)
    ensures var before, after := w.s.desk.pending.vals[r], Next(w.s, event, graceMs).desk.pending;
            && r in after.vals
            && after.vals[r] ==
               if before.answering.Some? then before
               else if event.TurnStopped? && event.stop.finalText.Some? then Pending(false, event.stop.finalText)
               else Pending(true, None)
  {
    hide Joint, EndUnanswered, Tell, Ledgers.ObserveStop, SeesItsFirst, ByFirstStop, EndedBy;
    match event
    case TurnFailed(failure, session, view, nowMs) =>
      NotFollowed(Observed(w.s, Ledgers.FailureAsStop(failure)), FailureSeen(failure, session));
      FirstCountedEnds(w, Ledgers.FailureAsStop(failure), view, nowMs, graceMs, r);
      ByFailure(w.s.desk.pending.vals[r], failure);
    case TurnStopped(stop, session, view, nowMs) =>
      NotFollowed(Observed(w.s, Ledgers.TurnStop(stop, None)), StopSeen(stop, session));
      FirstCountedEnds(w, Ledgers.TurnStop(stop, None), view, nowMs, graceMs, r);
      ByStop(w.s.desk.pending.vals[r], stop);
  }

  lemma ByFailure(before: Pending, failure: FailureRecord)
    ensures EndedBy(before, Some(ByFirstStop(Ledgers.FailureAsStop(failure)))) ==
            if before.answering.Some? then before else Pending(true, None)
  {}

  lemma ByStop(before: Pending, stop: StopRecord)
    ensures EndedBy(before, Some(ByFirstStop(Ledgers.TurnStop(stop, None)))) ==
            if before.answering.Some? then before
            else if stop.finalText.Some? then Pending(false, stop.finalText) else Pending(true, None)
  {}

  lemma FirstCounted(l: Ledger, stop: Ledgers.TurnStop, r: RequestId, view: Ledgers.TurnView)
    requires r in l.deliveries.vals && !l.byPromptId && stop.stop.background == Some(false)
    requires var d := l.deliveries.vals[r]; d.startsTurn && d.stopsBefore == l.stops && d.atMs < stop.stop.atMs
    requires l.lastStop.Some? ==> l.lastStop.value.stop.atMs < stop.stop.atMs
    ensures var o := Ledgers.ObserveStop(l, Some(stop));
            && r in o.deliveries.vals
            && FirstStopAfter(o, o.deliveries.vals[r], view) == Some(stop)
            && HasVerdict(o, o.deliveries.vals[r], view)
  {}

  /** A Stop the ledger counts first since a delivery taken to start a turn. */
  lemma FirstCountedEnds(w: World, stop: Ledgers.TurnStop, view: Ledgers.TurnView, nowMs: nat, graceMs: nat,
                         r: RequestId)
    requires Agreed(w) && SeesItsFirst(w.s.desk.ledger) && !w.s.tracker.binding && w.s.desk.IsOpen(r)
    requires stop.stop.background == Some(false) && r in w.s.desk.ledger.deliveries.vals
    requires var l, d := w.s.desk.ledger, w.s.desk.ledger.deliveries.vals[r];
             && d.startsTurn && d.stopsBefore == l.stops && d.atMs < stop.stop.atMs
             && (l.lastStop.Some? ==> l.lastStop.value.stop.atMs < stop.stop.atMs)
    ensures var before := w.s.desk.pending.vals[r];
            var after := EndUnanswered(Observed(w.s, stop).desk, view, nowMs, graceMs).pending;
            r in after.vals && after.vals[r] == EndedBy(before, Some(ByFirstStop(stop)))
  {
    var o := World(Observed(w.s, stop), w.h, w.issued);
    var l := w.s.desk.ledger;
    ObservedAgrees(w.s, w.h, w.issued, stop);
    CountingSees(l, stop);
    FirstCounted(l, stop, r, view);
    BooksAreShared(o);
    hide FirstStopAfter, HasVerdict, Joint, EndUnanswered, Ledgers.ObserveStop, SeesItsFirst, ByFirstStop, EndedBy;
    SparedOrEndedNow(o, view, nowMs, graceMs, r);
  }
}
