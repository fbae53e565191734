/** The joint invariant of tracker and ledger over every run of the server. */
module AgreementRuns {
  import opened Records
  import opened OrderedMaps
  import opened Turns
  import opened TurnHistory
  import opened Channels
  import opened Agreement
  import Ledgers

  // The records.

  lemma JointIsFlat(t: Tracker, k: Desk, h: History, issued: set<RequestId>)
    requires Joint(t, k, h, issued)
    ensures Kept(Followed(t, h)) && Flat(t)
  {}

  lemma BindingAgrees(t: Tracker, k: Desk, h: History, issued: set<RequestId>)
    requires Joint(t, k, h, issued)
    ensures var begun := if t.binding then [] else [BindingStarted];
            && Joint(t.(binding := true), OnCalls(k, begun), h, issued)
            && Noted(h, begun) == h
            && forall r :: OnCalls(k, begun).IsOpen(r) == k.IsOpen(r)
  {
    BindingKeeps(t, h);
    if !t.binding {
      OnOneCall(k, BindingStarted);
      hide Kept, OnCalls;
      var u, n := t.(binding := true), OnCall(k, BindingStarted);
      forall r <- n.pending.vals | n.IsOpen(r) && r in n.ledger.deliveries.vals
        ensures AgreeOn(u, n.ledger.deliveries.vals[r], r) && Judged(u, n.ledger.deliveries.vals[r], r, h.ends) {
        assert AgreeOn(t, k.ledger.deliveries.vals[r], r) && Judged(t, k.ledger.deliveries.vals[r], r, h.ends);
      }
    }
  }

  lemma TakeTypedAgrees(t: Tracker, k: Desk, h: History, issued: set<RequestId>,
                        id: PromptId, at: nat, session: Option<string>)
    requires Joint(t, k, h, issued) && t.binding && id !in t.alias.vals && id !in t.ended.vals
    ensures var e := TakeTyped(t, id, at, session); Joint(e.state, OnCalls(k, e.calls), Noted(h, e.calls), issued)
  {
    if t.IsCurrent(id) {
      BatchAgrees(t, k, h, issued, None);
    } else {
      NextLocalAgrees(t, k, h, issued, id, at, session);
    }
    hide Joint;
  }

  lemma SubmittedAgrees(t: Tracker, k: Desk, h: History, issued: set<RequestId>, submit: SubmitRecord,
                        session: Option<string>)
    requires Joint(t, k, h, issued)
    ensures var isOpen := submit.requestId.Some? && k.IsOpen(submit.requestId.value);
            var e := Submitted(t, submit, isOpen, session);
            Joint(e.state, OnCalls(k, e.calls), Noted(h, e.calls), issued)
  {
    JointIsFlat(t, k, h, issued);
    if submit.promptId.None? {
      if t.current.Some? {
        BatchAgrees(t, k, h, issued, None);
      }
    } else {
      ResolvesToUnaliased(t, submit.promptId.value);
      BindingAgrees(t, k, h, issued);
      hide Joint, Kept, Flat;
      var id := t.Resolve(submit.promptId.value);
      var b := t.(binding := true);
      var begun := if t.binding then [] else [BindingStarted];
      var k1 := OnCalls(k, begun);
      if id !in b.ended.vals {
        var sessionId := submit.sessionId.OrElse(session);
        var e: Effect;
        if submit.requestId.Some? {
          TakeChannelAgrees(b, k1, h, issued, submit.requestId.value, id, submit.atMs, sessionId);
          e := TakeChannel(b, submit.requestId.value, id, submit.atMs, sessionId, k.IsOpen(submit.requestId.value));
        } else {
          TakeTypedAgrees(b, k1, h, issued, id, submit.atMs, sessionId);
          e := TakeTyped(b, id, submit.atMs, sessionId);
        }
        NotedConcat(h, begun, e.calls);
        OnCallsConcat(k, begun, e.calls);
        hide Noted, OnCalls;
      }
    }
  }

  lemma SurfaceAgrees(t: Tracker, k: Desk, h: History, issued: set<RequestId>, id: PromptId, at: nat,
                      session: Option<string>)
    requires Joint(t, k, h, issued) && t.binding && id !in t.alias.vals
    ensures var e := Surface(t, id, at, session); Joint(e.state, OnCalls(k, e.calls), Noted(h, e.calls), issued)
  {
    if Surfaces(t, id) {
      NextLocalAgrees(t, k, h, issued, id, Since(t, at), session);
    }
    hide Joint;
  }

  lemma CloseAgrees(t: Tracker, k: Desk, h: History, issued: set<RequestId>, end: TurnEnd)
    requires Joint(t, k, h, issued) && !end.ShutdownEnd?
    ensures var e := End(t.(lastEndMs := Some(end.AtMs())), end);
            Joint(e.state, OnCalls(k, e.calls), Noted(h, e.calls), issued)
  {
    var x := t.(lastEndMs := Some(end.AtMs()));
    assert Kept(Followed(x, h));
    assert Joint(x, k, h, issued) by {
      hide Kept;
      forall r <- k.pending.vals | k.IsOpen(r) && r in k.ledger.deliveries.vals
        ensures AgreeOn(x, k.ledger.deliveries.vals[r], r) && Judged(x, k.ledger.deliveries.vals[r], r, h.ends) {
        assert AgreeOn(t, k.ledger.deliveries.vals[r], r) && Judged(t, k.ledger.deliveries.vals[r], r, h.ends);
      }
    }
    hide Joint, Kept;
    EndAgrees(x, k, h, issued, end);
  }

  lemma FinishedAgrees(t: Tracker, k: Desk, h: History, issued: set<RequestId>,
                       id: Option<PromptId>, session: Option<string>, end: TurnEnd)
    requires Joint(t, k, h, issued) && !end.ShutdownEnd?
    ensures var e := Finished(t, id, session, end); Joint(e.state, OnCalls(k, e.calls), Noted(h, e.calls), issued)
  {
    JointIsFlat(t, k, h, issued);
    if t.binding {
      if id.None? {
        if t.current.Some? {
          BatchAgrees(t, k, h, issued, None);
        }
      } else {
        ResolvesToUnaliased(t, id.value);
        hide Joint, Kept, Flat, Noted, OnCalls;
        var p := t.Resolve(id.value);
        SurfaceAgrees(t, k, h, issued, p, end.AtMs(), session);
        var s := Surface(t, p, end.AtMs(), session);
        var e := End(s.state.(lastEndMs := Some(end.AtMs())), end);
        CloseAgrees(s.state, OnCalls(k, s.calls), Noted(h, s.calls), issued, end);
        hide Surface, Turns.End;
        if s.state.IsCurrent(p) && (Surfaces(t, p) || s.state.current.value.turn.startedAtMs < end.AtMs()) {
          assert Finished(t, id, session, end) == Effect(e.state, s.calls + e.calls);
          NotedConcat(h, s.calls, e.calls);
          OnCallsConcat(k, s.calls, e.calls);
        } else {
          assert Finished(t, id, session, end) == s;
        }
      }
    }
  }

  lemma ActivityAgrees(t: Tracker, k: Desk, h: History, issued: set<RequestId>, activity: TurnActivity,
                       session: Option<string>)
    requires Joint(t, k, h, issued)
    ensures var e := Activity(t, activity, session); Joint(e.state, OnCalls(k, e.calls), Noted(h, e.calls), issued)
  {
    JointIsFlat(t, k, h, issued);
    if t.binding && activity.promptId.Some? {
      ResolvesToUnaliased(t, activity.promptId.value);
      hide Joint, Kept, Flat, Noted, OnCalls;
      var p := t.Resolve(activity.promptId.value);
      SurfaceAgrees(t, k, h, issued, p, activity.atMs, session);
      var s := Surface(t, p, activity.atMs, session);
      hide Surface;
      if s.state.IsCurrent(p) {
        BatchAgrees(s.state, OnCalls(k, s.calls), Noted(h, s.calls), issued, None);
        assert Activity(t, activity, session) == Effect(BreakBatch(s.state), s.calls);
      } else {
        assert Activity(t, activity, session) == s;
      }
    }
  }

  // The server's own steps.

  /** The server, with what it told of turns and the ids it handed out so far. */
  datatype World = World(s: Server, h: History, issued: set<RequestId>)

  ghost predicate Agreed(w: World) {
    Joint(w.s.tracker, w.s.desk, w.h, w.issued)
  }

  /** The record an event shows the tracker, if it shows one. */
  function Shown(s: Server, event: Event): Option<Record> {
    match event
    case PromptSubmitted(submit, session, _, _) => Some(SubmitHeard(s, submit, session))
    case ToolCalled(activity, session, _, _) => Some(ActivitySeen(activity, session))
    case TurnStopped(stop, session, _, _) => Some(StopSeen(stop, session))
    case TurnFailed(failure, session, _, _) => Some(FailureSeen(failure, session))
    case _ => None
  }

  function Live(w: World, event: Event, graceMs: nat): World {
    var rec := Shown(w.s, event);
    World(Next(w.s, event, graceMs),
          if rec.Some? then Noted(w.h, Apply(w.s.tracker, rec.value).calls) else w.h,
          if event.Accept? then w.issued + {event.requestId} else w.issued)
  }

  lemma TellAgrees(s: Server, h: History, issued: set<RequestId>, rec: Record)
    requires Joint(s.tracker, s.desk, h, issued) && !rec.Forgotten?
    requires rec.SubmitSeen? ==> rec == SubmitHeard(s, rec.submit, rec.session)
    ensures var n := Tell(s, rec); Joint(n.tracker, n.desk, Noted(h, Apply(s.tracker, rec).calls), issued)
  {
    hide Joint;
    match rec
    case SubmitSeen(submit, isOpen, session) => SubmittedAgrees(s.tracker, s.desk, h, issued, submit, session);
    case ActivitySeen(activity, session) => ActivityAgrees(s.tracker, s.desk, h, issued, activity, session);
    case StopSeen(stop, session) =>
      FinishedAgrees(s.tracker, s.desk, h, issued, stop.promptId, stop.sessionId.OrElse(session), StopEnd(stop));
    case FailureSeen(failure, session) =>
      FinishedAgrees(s.tracker, s.desk, h, issued, failure.promptId, failure.sessionId.OrElse(session),
                     FailureEnd(failure.atMs, failure.error, failure.errorDetails));
  }

  /** Which fields of a delivery the agreement is about. */
  predicate SameVerdict(d: Delivery, e: Delivery) {
    d.boundTo == e.boundTo && d.ended == e.ended && d.graced == e.graced
  }

  /** Nothing that leaves bindings and verdicts alone, and opens no request, disturbs the agreement. */
  lemma AsideAgrees(t: Tracker, k: Desk, n: Desk, h: History, issued: set<RequestId>)
    requires Joint(t, k, h, issued)
    requires n.pending.vals.Keys == k.pending.vals.Keys && n.ledger.byPromptId == k.ledger.byPromptId
    requires n.ledger.deliveries.vals.Keys == k.ledger.deliveries.vals.Keys
    requires forall r <- n.pending.vals :: n.IsOpen(r) ==> k.IsOpen(r)
    requires forall r <- n.ledger.deliveries.vals ::
             SameVerdict(k.ledger.deliveries.vals[r], n.ledger.deliveries.vals[r])
    ensures Joint(t, n, h, issued)
  {
    hide Kept;
    forall r <- n.pending.vals | n.IsOpen(r) && r in n.ledger.deliveries.vals
      ensures AgreeOn(t, n.ledger.deliveries.vals[r], r) && Judged(t, n.ledger.deliveries.vals[r], r, h.ends) {
      var d, e := k.ledger.deliveries.vals[r], n.ledger.deliveries.vals[r];
      assert AgreeOn(t, d, r) && Judged(t, d, r, h.ends);
      if d.boundTo.Some? && r !in t.CurrentRequests() {
        var j: nat :| JudgedBy(d, r, h.ends, j);
        assert JudgedBy(e, r, h.ends, j);
      }
    }
  }

  lemma ObservedIsAside(l: Ledger, stop: Option<Ledgers.TurnStop>)
    ensures var o := Ledgers.ObserveStop(l, stop);
            && o.deliveries.vals.Keys == l.deliveries.vals.Keys
            && o.byPromptId == l.byPromptId
            && forall r <- o.deliveries.vals :: SameVerdict(l.deliveries.vals[r], o.deliveries.vals[r])
  {}

  lemma OwnerIsAside(l: Ledger, view: TurnView, open: set<RequestId>)
    ensures var o := Ledgers.OwnerNow(l, view, open).0;
            && o.deliveries.vals.Keys == l.deliveries.vals.Keys
            && o.byPromptId == l.byPromptId
            && forall r <- o.deliveries.vals :: SameVerdict(l.deliveries.vals[r], o.deliveries.vals[r])
  {
    hide Ledgers.Starters, Ledgers.BoundNow;
    if Ledgers.OwnerNow(l, view, open).0 != l {
      var r := Ledgers.Starters(l, view.activity.value.firstMs)[0];
      assert Ledgers.OwnerNow(l, view, open).0 == Ledgers.Claim(l, r, view.activity.value.promptId.value);
    }
  }

  /** Ending requests settles some of them and opens none. */
  lemma {:induction false} EndEachOpensNone(pending: OMap<RequestId, Pending>, us: seq<Ledgers.Unanswered>)
    ensures var n := EndEach(pending, us);
            && n.vals.Keys == pending.vals.Keys
            && forall r <- n.vals :: pending.vals[r].settled ==> n.vals[r].settled
  {
    SameKeys(pending, EndEach(pending, us));
    if us != [] {
      EndEachOpensNone(pending, us[..|us| - 1]);
    }
  }

  lemma EndUnansweredAgrees(t: Tracker, k: Desk, h: History, issued: set<RequestId>, view: TurnView, nowMs: nat,
                            graceMs: nat)
    requires Joint(t, k, h, issued)
    ensures Joint(t, EndUnanswered(k, view, nowMs, graceMs), h, issued)
  {
    if k.pending.keys != [] {
      var us := Ledgers.UnansweredNow(k.ledger, view, nowMs, graceMs, k.Open()).1;
      ObservedIsAside(k.ledger, Ledgers.AsStop(view.stop));
      EndEachOpensNone(k.pending, us);
      AsideAgrees(t, k, EndUnanswered(k, view, nowMs, graceMs), h, issued);
    }
  }

  lemma AcceptedKeepsAgreement(t: Tracker, k: Desk, n: Desk, ends: seq<Ended>, r: RequestId)
    requires AllAgree(t, k, ends) && r !in k.pending.vals && r !in t.bound && r !in t.CurrentRequests()
    requires n.pending.vals == k.pending.vals[r := Pending(false, None)]
    requires exists at: nat, stops: nat, starts: bool ::
             n.ledger.deliveries.vals == k.ledger.deliveries.vals[r := Ledgers.Fresh(at, stops, starts)]
    ensures AllAgree(t, n, ends)
  {
    forall x <- n.pending.vals | n.IsOpen(x) && x in n.ledger.deliveries.vals
      ensures AgreeOn(t, n.ledger.deliveries.vals[x], x) && Judged(t, n.ledger.deliveries.vals[x], x, ends) {
      if x != r {
        assert k.IsOpen(x);
        assert AgreeOn(t, k.ledger.deliveries.vals[x], x) && Judged(t, k.ledger.deliveries.vals[x], x, ends);
      }
    }
  }

  lemma AcceptedAgrees(s: Server, h: History, issued: set<RequestId>, r: RequestId, view: TurnView, nowMs: nat)
    requires Joint(s.tracker, s.desk, h, issued) && r !in issued
    ensures var n := Accepted(s, r, view, nowMs); Joint(n.tracker, n.desk, h, issued + {r})
  {
    var t, k, n := s.tracker, s.desk, Accepted(s, r, view, nowMs).desk;
    var o := Ledgers.ObserveStop(k.ledger, Ledgers.AsStop(view.stop));
    ObservedIsAside(k.ledger, Ledgers.AsStop(view.stop));
    AsideAgrees(t, k, k.(ledger := o), h, issued);
    StartsAreCurrent(t, h);
    hide Kept, Ledgers.ObserveStop, Ledgers.Quiet, AllAgree;
    var d := n.ledger.deliveries.vals[r];
    assert d == Ledgers.Fresh(nowMs, o.stops, Ledgers.Quiet(o, view, k.(pending := n.pending).Open()));
    AcceptedKeepsBooks(t, k.(ledger := o), h, issued, r, Pending(false, None), d);
    AcceptedKeepsAgreement(t, k.(ledger := o), n, h.ends, r);
    BooksAside(t, Desk(o.(deliveries := Put(o.deliveries, r, d)), Put(k.pending, r, Pending(false, None))), n, h,
               issued + {r});
    hide SameBooks;
  }

  lemma SettledAgrees(s: Server, h: History, issued: set<RequestId>, r: RequestId)
    requires Joint(s.tracker, s.desk, h, issued)
    ensures var n := Settled(s, r); Joint(n.tracker, n.desk, h, issued)
  {
    if r in s.desk.pending.vals {
      AsideAgrees(s.tracker, s.desk, Settled(s, r).desk, h, issued);
    }
  }

  lemma RemovedKeepsAgreement(s: Server, ends: seq<Ended>, r: RequestId)
    requires AllAgree(s.tracker, s.desk, ends) && r in s.desk.pending.vals
    ensures AllAgree(Removed(s, r).tracker, Removed(s, r).desk, ends)
  {
    var t, k, n := s.tracker, s.desk, Removed(s, r);
    forall x <- n.desk.pending.vals | n.desk.IsOpen(x) && x in n.desk.ledger.deliveries.vals
      ensures AgreeOn(n.tracker, n.desk.ledger.deliveries.vals[x], x)
              && Judged(n.tracker, n.desk.ledger.deliveries.vals[x], x, ends) {
      assert k.IsOpen(x) && x != r;
      assert AgreeOn(t, k.ledger.deliveries.vals[x], x) && Judged(t, k.ledger.deliveries.vals[x], x, ends);
    }
  }

  lemma RemovedAgrees(s: Server, h: History, issued: set<RequestId>, r: RequestId)
    requires Joint(s.tracker, s.desk, h, issued)
    ensures var n := Removed(s, r); Joint(n.tracker, n.desk, h, issued)
  {
    if r in s.desk.pending.vals {
      ForgetKeeps(s.tracker, h, r);
      RemovedKeepsBooks(s, h, issued, r);
      RemovedKeepsAgreement(s, h.ends, r);
      hide Kept, AllAgree, SameBooks;
    }
  }

  lemma RemovedKeepsBooks(s: Server, h: History, issued: set<RequestId>, r: RequestId)
    requires SameBooks(s.tracker, s.desk, h, issued)
    ensures SameBooks(Removed(s, r).tracker, Removed(s, r).desk, h, issued)
  {}

  lemma AcceptedKeepsBooks(t: Tracker, k: Desk, h: History, issued: set<RequestId>, r: RequestId, p: Pending,
                           d: Delivery)
    requires SameBooks(t, k, h, issued) && r !in issued
    ensures r !in t.bound
    ensures SameBooks(t, Desk(k.ledger.(deliveries := Put(k.ledger.deliveries, r, d)), Put(k.pending, r, p)), h,
                      issued + {r})
  {}

  lemma BooksAside(t: Tracker, k: Desk, n: Desk, h: History, issued: set<RequestId>)
    requires SameBooks(t, k, h, issued) && n.pending == k.pending && n.ledger.deliveries == k.ledger.deliveries
    requires n.ledger.byPromptId == k.ledger.byPromptId
    ensures SameBooks(t, n, h, issued)
  {}

  lemma HeardAgrees(s: Server, h: History, issued: set<RequestId>, rec: Record, view: TurnView, nowMs: nat,
                    graceMs: nat)
    requires Joint(s.tracker, s.desk, h, issued) && !rec.Forgotten?
    requires rec.SubmitSeen? ==> rec == SubmitHeard(s, rec.submit, rec.session)
    ensures var n := Heard(s, rec, view, nowMs, graceMs);
            Joint(n.tracker, n.desk, Noted(h, Apply(s.tracker, rec).calls), issued)
  {
    hide Joint, EndUnanswered, OnCalls, Apply, Noted;
    TellAgrees(s, h, issued, rec);
    var t := Tell(s, rec);
    EndUnansweredAgrees(t.tracker, t.desk, Noted(h, Apply(s.tracker, rec).calls), issued, view, nowMs, graceMs);
  }

  lemma ObservedAgrees(s: Server, h: History, issued: set<RequestId>, stop: Ledgers.TurnStop)
    requires Joint(s.tracker, s.desk, h, issued)
    ensures var n := Observed(s, stop); Joint(n.tracker, n.desk, h, issued) && n.tracker == s.tracker
  {
    ObservedIsAside(s.desk.ledger, Some(stop));
    AsideAgrees(s.tracker, s.desk, Observed(s, stop).desk, h, issued);
  }

  lemma QuestionAgrees(t: Tracker, k: Desk, h: History, issued: set<RequestId>, view: TurnView)
    requires Joint(t, k, h, issued)
    ensures Joint(t, k.(ledger := Ledgers.OwnerOf(k.ledger, view, k.Open()).0), h, issued)
  {
    var o := Ledgers.ObserveStop(k.ledger, Ledgers.AsStop(view.stop));
    ObservedIsAside(k.ledger, Ledgers.AsStop(view.stop));
    OwnerIsAside(o, view, k.Open());
    hide Ledgers.ObserveStop, Ledgers.OwnerNow;
    AsideAgrees(t, k, k.(ledger := Ledgers.OwnerOf(k.ledger, view, k.Open()).0), h, issued);
  }

  lemma LiveAgrees(w: World, event: Event, graceMs: nat)
    requires Agreed(w) && Enabled(w.s, w.issued, event)
    ensures Agreed(Live(w, event, graceMs))
  {
    hide Joint, Heard, Observed, Accepted, Settled, Removed, EndUnanswered, Noted, Apply;
    match event
    case Accept(r, view, nowMs) => AcceptedAgrees(w.s, w.h, w.issued, r, view, nowMs);
    case Settle(r) => SettledAgrees(w.s, w.h, w.issued, r);
    case Remove(r) => RemovedAgrees(w.s, w.h, w.issued, r);
    case PromptSubmitted(submit, session, view, nowMs) =>
      HeardAgrees(w.s, w.h, w.issued, SubmitHeard(w.s, submit, session), view, nowMs, graceMs);
    case ToolCalled(activity, session, view, nowMs) =>
      HeardAgrees(w.s, w.h, w.issued, ActivitySeen(activity, session), view, nowMs, graceMs);
    case TurnStopped(stop, session, view, nowMs) =>
      ObservedAgrees(w.s, w.h, w.issued, Ledgers.TurnStop(stop, None));
      HeardAgrees(Observed(w.s, Ledgers.TurnStop(stop, None)), w.h, w.issued, StopSeen(stop, session), view, nowMs,
                  graceMs);
    case TurnFailed(failure, session, view, nowMs) =>
      ObservedAgrees(w.s, w.h, w.issued, Ledgers.FailureAsStop(failure));
      HeardAgrees(Observed(w.s, Ledgers.FailureAsStop(failure)), w.h, w.issued, FailureSeen(failure, session), view,
                  nowMs, graceMs);
    case Tick(view, nowMs) => EndUnansweredAgrees(w.s.tracker, w.s.desk, w.h, w.issued, view, nowMs, graceMs);
    case Question(view) => QuestionAgrees(w.s.tracker, w.s.desk, w.h, w.issued, view);
  }

  lemma InitAgrees(binding: bool, lastStopMs: Option<nat>)
    ensures Agreed(World(Channels.Init(binding, lastStopMs), NO_HISTORY, {}))
  {}

  // Runs of the server.

  function Reach(binding: bool, lastStopMs: Option<nat>, events: seq<Event>, graceMs: nat): World {
    if events == [] then World(Channels.Init(binding, lastStopMs), NO_HISTORY, {})
    else Live(Reach(binding, lastStopMs, events[..|events| - 1], graceMs), events[|events| - 1], graceMs)
  }

  /** Every event of the run could happen when it did. */
  predicate Possible(binding: bool, lastStopMs: Option<nat>, events: seq<Event>, graceMs: nat) {
    events == [] ||
    var before := events[..|events| - 1];
    && Possible(binding, lastStopMs, before, graceMs)
    && var w := Reach(binding, lastStopMs, before, graceMs);
       Enabled(w.s, w.issued, events[|events| - 1])
  }

  lemma {:induction false} ReachAgrees(binding: bool, lastStopMs: Option<nat>, events: seq<Event>, graceMs: nat)
    requires Possible(binding, lastStopMs, events, graceMs)
    ensures Agreed(Reach(binding, lastStopMs, events, graceMs))
  {
    if events == [] {
      InitAgrees(binding, lastStopMs);
    } else {
      var before := events[..|events| - 1];
      ReachAgrees(binding, lastStopMs, before, graceMs);
      LiveAgrees(Reach(binding, lastStopMs, before, graceMs), events[|events| - 1], graceMs);
    }
  }
}
