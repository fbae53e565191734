/**
 What the server's own events do, said of its lists alone: which messages
 start a request, that a completion settles once, that a request removed
 leaves nothing behind, and that every Stop and failure is counted.
 */
module ServerLaws {
  import opened Records
  import opened OrderedMaps
  import opened Turns
  import opened TurnHistory
  import opened TurnRules
  import opened TurnLaws
  import opened Channels
  import opened Agreement
  import opened AgreementRuns
  import opened Outcomes
  import Ledgers

  predicate Starts(calls: seq<Call>) {
    exists c <- calls :: c.PromptStarted?
  }

  lemma StartsConcat(a: seq<Call>, b: seq<Call>)
    ensures Starts(a + b) <==> Starts(a) || Starts(b)
  {
    if Starts(a) {
      var c :| c in a && c.PromptStarted?;
      assert c in a + b;
    }
    if Starts(b) {
      var c :| c in b && c.PromptStarted?;
      assert c in a + b;
    }
  }

  lemma StartsLast(t: Tracker, a: seq<Call>, submit: SubmitRecord, isOpen: bool, turn: Turn, session: Option<string>)
    requires forall c <- a :: !c.PromptStarted?
    ensures Starts(a + StartTold(t, submit, isOpen, turn, session)) <==> Binds(t, submit, isOpen)
  {
    StartsConcat(a, StartTold(t, submit, isOpen, turn, session));
    if Binds(t, submit, isOpen) {
      assert StartTold(t, submit, isOpen, turn, session)[0].PromptStarted?;
    }
  }

  /** `r` is bound to the running turn, and listed in it. */
  ghost predicate InRunningTurn(t: Tracker, r: RequestId) {
    t.current.Some? && BoundIn(t, r) == Some(t.current.value.turn.promptId) && r in t.CurrentRequests()
  }

  /** What a message's record is to start: its request, if it binds it, in the turn running then. */
  ghost predicate StartsOwn(t: Tracker, submit: SubmitRecord, isOpen: bool, e: Effect) {
    && (Starts(e.calls) <==> Binds(t, submit, isOpen))
    && (Binds(t, submit, isOpen) ==> InRunningTurn(e.state, submit.requestId.value))
  }

  lemma OwnIsIn(t: Tracker, u: Tracker, submit: SubmitRecord, isOpen: bool, turn: Turn, until: Option<nat>,
                requests: seq<RequestId>, bound: map<RequestId, PromptId>)
    requires u.current == Some(OpenTurn(turn, until)) && turn.requests == WithOwn(t, submit, isOpen, requests)
    requires u.bound == BoundWith(t, submit, isOpen, bound, turn.promptId)
    ensures Binds(t, submit, isOpen) ==> InRunningTurn(u, submit.requestId.value)
  {}

  lemma FoldStarts(t: Tracker, submit: SubmitRecord, isOpen: bool, session: Option<string>)
    requires Flat(t) && t.binding && submit.promptId.Some? && submit.requestId.Some?
    requires t.IsCurrent(t.Resolve(submit.promptId.value))
    ensures StartsOwn(t, submit, isOpen, Apply(t, SubmitSeen(submit, isOpen, session)))
  {
    var was, e := t.current.value.turn, Apply(t, SubmitSeen(submit, isOpen, session));
    var turn := was.(requests := WithOwn(t, submit, isOpen, was.requests));
    MessageFolds(t, submit, isOpen, session);
    Nothing(StartTold(t, submit, isOpen, turn, session));
    hide Apply, Starts, StartTold, Flat, WithOwn, BoundWith, Binds, InRunningTurn;
    StartsLast(t, [], submit, isOpen, turn, session);
    OwnIsIn(t, e.state, submit, isOpen, turn, e.state.current.value.batchUntilMs, was.requests, t.bound);
  }

  lemma JoinStarts(t: Tracker, submit: SubmitRecord, isOpen: bool, session: Option<string>)
    requires t.binding && submit.promptId.Some? && submit.requestId.Some? && Unknown(t, submit.promptId.value)
    requires InBatch(t, submit.atMs)
    ensures StartsOwn(t, submit, isOpen, Apply(t, SubmitSeen(submit, isOpen, session)))
  {
    var id, was := t.Resolve(submit.promptId.value), t.current.value.turn;
    var turn, e := was.(promptId := id, requests := WithOwn(t, submit, isOpen, was.requests)),
      Apply(t, SubmitSeen(submit, isOpen, session));
    MessageJoins(t, submit, isOpen, session);
    hide Apply, Starts, StartTold, WithOwn, BoundWith, Binds, InRunningTurn;
    StartsLast(t, seq(|was.requests|, i requires 0 <= i < |was.requests| => PromptRebound(was.requests[i], id)), submit,
               isOpen, turn, session);
    OwnIsIn(t, e.state, submit, isOpen, turn, e.state.current.value.batchUntilMs, was.requests,
            t.bound + map r | r in was.requests :: id);
  }

  lemma BeginStarts(t: Tracker, submit: SubmitRecord, isOpen: bool, session: Option<string>)
    requires submit.promptId.Some? && submit.requestId.Some? && Unknown(t, submit.promptId.value)
    requires !InBatch(t, submit.atMs)
    ensures StartsOwn(t, submit, isOpen, Apply(t, SubmitSeen(submit, isOpen, session)))
  {
    var at, id := submit.atMs, t.Resolve(submit.promptId.value);
    var turn := Turn(id, Served, at, SessionOf(submit, session), WithOwn(t, submit, isOpen, []), None);
    var e := Apply(t, SubmitSeen(submit, isOpen, session));
    MessageBegins(t, submit, isOpen, session);
    hide Apply, Starts, StartTold, WithOwn, BoundWith, Binds, InRunningTurn;
    StartsLast(t, BindingTold(t) + EndTold(t, NextEnd(at)), submit, isOpen, turn, session);
    OwnIsIn(t, e.state, submit, isOpen, turn, e.state.current.value.batchUntilMs, [], t.bound);
  }

  lemma SubmitStarts(t: Tracker, submit: SubmitRecord, isOpen: bool, session: Option<string>)
    requires Flat(t) && WellKinded(t)
    ensures var e := Apply(t, SubmitSeen(submit, isOpen, session));
            if submit.promptId.Some? && submit.requestId.Some? && t.Resolve(submit.promptId.value) !in t.ended.vals
            then StartsOwn(t, submit, isOpen, e)
            else !Starts(e.calls)
  {
    hide Apply, StartsOwn, EndTold;
    if submit.promptId.None? {
      SubmitWithoutId(t, submit, isOpen, session);
    } else if t.Resolve(submit.promptId.value) in t.ended.vals {
      SubmitOfEnded(t, submit, isOpen, session);
    } else if submit.requestId.Some? {
      if t.IsCurrent(t.Resolve(submit.promptId.value)) {
        FoldStarts(t, submit, isOpen, session);
      } else if InBatch(t, submit.atMs) {
        JoinStarts(t, submit, isOpen, session);
      } else {
        BeginStarts(t, submit, isOpen, session);
      }
    } else if t.IsCurrent(t.Resolve(submit.promptId.value)) {
      TypedContinues(t, submit, isOpen, session);
    } else {
      TypedBegins(t, submit, isOpen, session);
      TellsNoStart(t, NextEnd(submit.atMs));
    }
  }

  lemma TellsNoStart(t: Tracker, end: TurnEnd)
    ensures forall c <- BindingTold(t) + EndTold(t, end) :: !c.PromptStarted?
  {}

  lemma TrackerHears(s: Server, submit: SubmitRecord, session: Option<string>, view: Ledgers.TurnView, nowMs: nat,
                     graceMs: nat)
    ensures Next(s, PromptSubmitted(submit, session, view, nowMs), graceMs).tracker ==
            Apply(s.tracker, SubmitHeard(s, submit, session)).state
  {
    hide Apply, OnCalls, EndUnanswered;
  }

  /**
   A submit starts a request exactly when it is a message of an open one that
   was never started, under an id no ended turn had; the request is then
   bound to the turn running after it, and listed in it.
   */
  lemma StartsOpenRequests(w: World, submit: SubmitRecord, session: Option<string>, view: Ledgers.TurnView, nowMs: nat,
                           graceMs: nat)
    requires Agreed(w)
    ensures var starts := Starts(Apply(w.s.tracker, SubmitHeard(w.s, submit, session)).calls);
            && (starts <==>
                  && submit.promptId.Some? && w.s.tracker.Resolve(submit.promptId.value) !in w.s.tracker.ended.vals
                  && submit.requestId.Some? && submit.requestId.value !in w.s.tracker.bound
                  && w.s.desk.IsOpen(submit.requestId.value))
            && (starts ==> InRunningTurn(Next(w.s, PromptSubmitted(submit, session, view, nowMs), graceMs).tracker,
                                         submit.requestId.value))
  {
    JointIsFlat(w.s.tracker, w.s.desk, w.h, w.issued);
    TrackerHears(w.s, submit, session, view, nowMs, graceMs);
    hide Joint, Next, Apply, Flat, Starts, InRunningTurn;
    SubmitStarts(w.s.tracker, submit, submit.requestId.Some? && w.s.desk.IsOpen(submit.requestId.value), session);
  }

  // A request's life in the server's lists.

  lemma {:induction false} EndEachLeavesSettled(pending: OMap<RequestId, Pending>, us: seq<Ledgers.Unanswered>,
                                               r: RequestId)
    requires r in pending.vals && pending.vals[r].settled
    ensures r in EndEach(pending, us).vals && EndEach(pending, us).vals[r] == pending.vals[r]
  {
    if us != [] {
      EndEachLeavesSettled(pending, us[..|us| - 1], r);
    }
  }

  lemma EndingLeavesSettled(k: Desk, view: Ledgers.TurnView, nowMs: nat, graceMs: nat, r: RequestId)
    requires r in k.pending.vals && k.pending.vals[r].settled
    ensures var n := EndUnanswered(k, view, nowMs, graceMs).pending; r in n.vals && n.vals[r] == k.pending.vals[r]
  {
    if k.pending.keys != [] {
      EndEachLeavesSettled(k.pending, Ledgers.UnansweredNow(k.ledger, view, nowMs, graceMs, k.Open()).1, r);
      hide Ledgers.UnansweredNow;
    }
  }

  lemma HeardLeavesSettled(s: Server, rec: Record, view: Ledgers.TurnView, nowMs: nat, graceMs: nat, r: RequestId)
    requires r in s.desk.pending.vals && s.desk.pending.vals[r].settled
    ensures var n := Heard(s, rec, view, nowMs, graceMs).desk.pending;
            r in n.vals && n.vals[r] == s.desk.pending.vals[r]
  {
    OnCallsKeepPending(s.desk, Apply(s.tracker, rec).calls);
    hide Apply, OnCalls, EndUnanswered;
    EndingLeavesSettled(Tell(s, rec).desk, view, nowMs, graceMs, r);
  }

  /**
   What is settled stays as it is, whatever happens, until it is removed; to
   settle a request settles it, and only it.
   */
  lemma SettledForGood(s: Server, event: Event, graceMs: nat, r: RequestId)
    requires r in s.desk.pending.vals && !(event.Accept? && event.requestId == r)
    ensures var n := Next(s, event, graceMs).desk.pending;
            && (s.desk.pending.vals[r].settled ==>
                  if event.Remove? && event.requestId == r then r !in n.vals
                  else r in n.vals && n.vals[r] == s.desk.pending.vals[r])
            && (event == Settle(r) ==> r in n.vals && n.vals[r] == s.desk.pending.vals[r].(settled := true))
            && (event.Settle? && event.requestId != r ==> r in n.vals && n.vals[r] == s.desk.pending.vals[r])
  {
    hide Heard, EndUnanswered, Ledgers.OwnerOf, Ledgers.Delivered, Ledgers.ObserveStop;
    if s.desk.pending.vals[r].settled {
      match event
      case PromptSubmitted(submit, session, view, nowMs) =>
        HeardLeavesSettled(s, SubmitHeard(s, submit, session), view, nowMs, graceMs, r);
      case ToolCalled(activity, session, view, nowMs) =>
        HeardLeavesSettled(s, ActivitySeen(activity, session), view, nowMs, graceMs, r);
      case TurnStopped(stop, session, view, nowMs) =>
        HeardLeavesSettled(Observed(s, Ledgers.TurnStop(stop, None)), StopSeen(stop, session), view, nowMs, graceMs, r);
      case TurnFailed(failure, session, view, nowMs) =>
        HeardLeavesSettled(Observed(s, Ledgers.FailureAsStop(failure)), FailureSeen(failure, session), view, nowMs,
                           graceMs, r);
      case Tick(view, nowMs) => EndingLeavesSettled(s.desk, view, nowMs, graceMs, r);
      case _ =>
    }
  }

  /** A request accepted is open from then on, and not being answered; every other is as it was. */
  lemma AcceptOpens(s: Server, r: RequestId, view: Ledgers.TurnView, nowMs: nat, graceMs: nat)
    ensures var n := Next(s, Accept(r, view, nowMs), graceMs);
            && n.desk.IsOpen(r) && n.desk.pending.vals[r].answering.None?
            && (forall x :: x != r ==> n.desk.IsOpen(x) == s.desk.IsOpen(x))
            && r in n.desk.ledger.deliveries.vals && n.tracker == s.tracker
            && var d := n.desk.ledger.deliveries.vals[r];
               && d.atMs == nowMs && d.boundTo.None? && d.ended.None? && !d.graced && d.firstStop.None?
               && d.stopsBefore == n.desk.ledger.stops
  {
    hide Ledgers.Quiet, Ledgers.ObserveStop;
  }

  /** A request removed is in none of the three lists, and every other is where it was. */
  lemma RemovedFromAll(s: Server, r: RequestId, graceMs: nat)
    requires r in s.desk.pending.vals
    ensures var n := Next(s, Remove(r), graceMs);
            && r !in n.desk.pending.vals && r !in n.desk.ledger.deliveries.vals && r !in n.tracker.bound
            && forall x :: x != r ==>
                 && BoundIn(n.tracker, x) == BoundIn(s.tracker, x)
                 && (x in n.desk.pending.vals <==> x in s.desk.pending.vals)
                 && (x in s.desk.pending.vals ==> n.desk.pending.vals[x] == s.desk.pending.vals[x])
                 && (x in n.desk.ledger.deliveries.vals <==> x in s.desk.ledger.deliveries.vals)
                 && (x in s.desk.ledger.deliveries.vals ==>
                       n.desk.ledger.deliveries.vals[x] == s.desk.ledger.deliveries.vals[x])
  {}

  lemma {:induction false} CallsCountNone(k: Desk, calls: seq<Call>)
    ensures OnCalls(k, calls).ledger.lastStop == k.ledger.lastStop && OnCalls(k, calls).ledger.stops == k.ledger.stops
  {
    if calls != [] {
      CallsCountNone(k, calls[..|calls| - 1]);
      hide OnCalls;
    }
  }

  /** The last Stop counted is no earlier than `at`. */
  predicate CountedTo(l: Ledger, at: nat) {
    l.lastStop.Some? && at <= l.lastStop.value.stop.atMs
  }

  lemma HeardCounts(s: Server, rec: Record, view: Ledgers.TurnView, nowMs: nat, graceMs: nat, at: nat)
    requires CountedTo(s.desk.ledger, at)
    ensures CountedTo(Heard(s, rec, view, nowMs, graceMs).desk.ledger, at)
  {
    CallsCountNone(s.desk, Apply(s.tracker, rec).calls);
    hide Apply, OnCalls;
  }

  /** A Stop or a failure that the server hears of counts, whatever it ends: the ledger has counted up to its time. */
  lemma EndsAreCounted(s: Server, event: Event, graceMs: nat)
    requires event.TurnStopped? || event.TurnFailed?
    ensures CountedTo(Next(s, event, graceMs).desk.ledger,
                      if event.TurnStopped? then event.stop.atMs else event.failure.atMs)
  {
    hide Heard;
    match event
    case TurnStopped(stop, session, view, nowMs) =>
      HeardCounts(Observed(s, Ledgers.TurnStop(stop, None)), StopSeen(stop, session), view, nowMs, graceMs, stop.atMs);
    case TurnFailed(failure, session, view, nowMs) =>
      HeardCounts(Observed(s, Ledgers.FailureAsStop(failure)), FailureSeen(failure, session), view, nowMs, graceMs,
                  failure.atMs);
  }

  /** With nothing pending, ending the unanswered does not even look at the Stop the files show. */
  lemma NothingPending(k: Desk, view: Ledgers.TurnView, nowMs: nat, graceMs: nat)
    requires k.pending.keys == []
    ensures EndUnanswered(k, view, nowMs, graceMs) == k
  {}
}
