/**
 What the agreement of tracker and ledger gives the callers: whose turn is
 whose, who is spared, and with what each request of an ended turn is ended.
 */
module Outcomes {
  import opened Records
  import opened OrderedMaps
  import opened Turns
  import opened TurnHistory
  import opened Channels
  import opened Agreement
  import opened AgreementRuns
  import opened TurnLaws
  import Ledgers

  /**
   The joint invariant, read for one unfinished request: the ledger's binding
   is the tracker's, and the ledger counts the request as owning exactly when
   it is one of the running turn's.
   */
  lemma BindingsAgree(w: World, r: RequestId)
    requires Agreed(w) && w.s.desk.IsOpen(r)
    ensures r in w.s.desk.ledger.deliveries.vals
    ensures w.s.desk.ledger.deliveries.vals[r].boundTo == BoundIn(w.s.tracker, r)
    ensures w.s.tracker.binding ==>
              (r in Ledgers.Owning(w.s.desk.ledger, w.s.desk.Open()) <==> r in w.s.tracker.CurrentRequests())
  {
    hide Kept;
    var d := w.s.desk.ledger.deliveries.vals[r];
    assert AgreeOn(w.s.tracker, d, r);
    assert r in w.s.desk.ledger.deliveries.keys && r in w.s.desk.Open();
  }

  /**
   Once turns are followed, the owners are exactly the open requests of the
   running turn: there is one at most if and only if it has one at most.
   */
  lemma OwnersAreTheTurns(w: World)
    requires Agreed(w) && w.s.tracker.binding
    ensures var owners := Ledgers.Owning(w.s.desk.ledger, w.s.desk.Open());
            && (forall r :: r in owners <==> w.s.desk.IsOpen(r) && r in w.s.tracker.CurrentRequests())
            && ((forall r <- owners, s <- owners :: r == s) <==>
                forall r <- w.s.tracker.CurrentRequests(), s <- w.s.tracker.CurrentRequests() ::
                  w.s.desk.IsOpen(r) && w.s.desk.IsOpen(s) ==> r == s)
  {
    var owners := Ledgers.Owning(w.s.desk.ledger, w.s.desk.Open());
    hide Agreed;
    forall r ensures r in owners <==> w.s.desk.IsOpen(r) && r in w.s.tracker.CurrentRequests() {
      if w.s.desk.IsOpen(r) {
        BindingsAgree(w, r);
      }
    }
    hide Ledgers.Owning;
  }

  // Each request in one list.

  lemma {:induction false} RequestsOfAt(ends: seq<Ended>, i: nat)
    requires i < |ends|
    ensures forall r <- ends[i].turn.requests :: r in RequestsOf(ends)
  {
    if i < |ends| - 1 {
      RequestsOfAt(ends[..|ends| - 1], i);
    }
  }

  lemma {:induction false} ListedOnce(ends: seq<Ended>, tail: seq<RequestId>, i: nat, j: nat)
    requires NoDup(RequestsOf(ends) + tail) && i < j < |ends|
    ensures forall r <- ends[i].turn.requests :: r !in ends[j].turn.requests && r !in tail
  {
    var last := |ends| - 1;
    var more := ends[last].turn.requests + tail;
    assert RequestsOf(ends) + tail == RequestsOf(ends[..last]) + more;
    if j < last {
      ListedOnce(ends[..last], more, i, j);
    } else {
      RequestsOfAt(ends[..last], i);
      NoDupParts(RequestsOf(ends[..last]), more);
    }
  }

  lemma NoDupParts<T>(a: seq<T>, b: seq<T>)
    requires NoDup(a + b)
    ensures forall x <- a :: x !in b
  {
    forall x <- a ensures x !in b {
      var i :| 0 <= i < |a| && a[i] == x;
      assert forall k :: 0 <= k < |b| ==> (a + b)[|a| + k] == b[k] && (a + b)[i] == x;
    }
  }

  /** Over all runs, each request started once at most, and is in one turn's list at most. */
  lemma StartsOnce(w: World)
    requires Agreed(w)
    ensures NoDup(w.h.starts)
    ensures w.h.starts == RequestsOf(w.h.ends) + w.s.tracker.CurrentRequests()
    ensures forall i, j, r :: 0 <= i < j < |w.h.ends| && r in w.h.ends[i].turn.requests ==>
              r !in w.h.ends[j].turn.requests
    ensures forall i, r :: 0 <= i < |w.h.ends| && r in w.h.ends[i].turn.requests ==> r !in w.s.tracker.CurrentRequests()
  {
    var current := w.s.tracker.CurrentRequests();
    forall i, j, r | 0 <= i < j < |w.h.ends| && r in w.h.ends[i].turn.requests ensures r !in w.h.ends[j].turn.requests {
      ListedOnce(w.h.ends, current, i, j);
    }
    forall i, r | 0 <= i < |w.h.ends| && r in w.h.ends[i].turn.requests ensures r !in current {
      RequestsOfAt(w.h.ends, i);
      NoDupParts(RequestsOf(w.h.ends), current);
    }
  }

  // Who is ended, and with what.

  /** How the ledger judges an open request now. */
  function JudgedNow(k: Desk, r: RequestId, view: TurnView, nowMs: nat, graceMs: nat): Option<Ledgers.Ending> {
    var o := Ledgers.ObserveStop(k.ledger, Ledgers.AsStop(view.stop));
    if r !in o.deliveries.vals || (o.lastStop.None? && !o.byPromptId) then None
    else Ledgers.Judge(o.deliveries.vals[r], o.byPromptId, Ledgers.GraceOver(o, view, nowMs, graceMs))
  }

  lemma EndEachMore(pending: OMap<RequestId, Pending>, us: seq<Ledgers.Unanswered>, u: Ledgers.Unanswered)
    ensures var before := EndEach(pending, us);
            EndEach(pending, us + [u]) ==
            if u.requestId in before.vals
              then Put(before, u.requestId, EndPending(before.vals[u.requestId], u.ending)) else before
  {
    assert (us + [u])[..|us|] == us;
  }

  lemma {:induction false} EndEachEndsEach(pending: OMap<RequestId, Pending>, l: Ledger, keys: seq<RequestId>,
                                          open: set<RequestId>, graceOver: bool, r: RequestId)
    requires NoDup(keys) && (forall x <- keys :: x in l.deliveries.vals) && r in pending.vals
    ensures var n := EndEach(pending, Ledgers.UnansweredIn(l, keys, open, graceOver));
            && r in n.vals
            && n.vals[r] ==
               if r in keys && r in open && Ledgers.Judge(l.deliveries.vals[r], l.byPromptId, graceOver).Some?
               then EndPending(pending.vals[r], Ledgers.Judge(l.deliveries.vals[r], l.byPromptId, graceOver).value)
               else pending.vals[r]
  {
    if keys != [] {
      var last := keys[|keys| - 1];
      var rest := keys[..|keys| - 1];
      assert NoDup(rest) && last !in rest && (r in keys <==> r == last || r in rest);
      EndEachEndsEach(pending, l, rest, open, graceOver, r);
      var us := Ledgers.UnansweredIn(l, rest, open, graceOver);
      var j := Ledgers.Judge(l.deliveries.vals[last], l.byPromptId, graceOver);
      hide Ledgers.Judge, EndPending, EndEach, NoDup;
      if last in open && j.Some? {
        EndEachMore(pending, us, Ledgers.Unanswered(last, j.value));
      } else {
        assert us + [] == us;
      }
    }
  }

  /** `endUnanswered` ends exactly the open requests the ledger judges, each with its own judgement. */
  lemma EndsTheJudged(k: Desk, view: TurnView, nowMs: nat, graceMs: nat, r: RequestId)
    requires r in k.pending.vals && k.pending.vals.Keys == k.ledger.deliveries.vals.Keys
    ensures var n := EndUnanswered(k, view, nowMs, graceMs);
            && r in n.pending.vals
            && n.pending.vals[r] ==
               if k.IsOpen(r) && JudgedNow(k, r, view, nowMs, graceMs).Some?
               then EndPending(k.pending.vals[r], JudgedNow(k, r, view, nowMs, graceMs).value)
               else k.pending.vals[r]
  {
    var o := Ledgers.ObserveStop(k.ledger, Ledgers.AsStop(view.stop));
    ObservedIsAside(k.ledger, Ledgers.AsStop(view.stop));
    EndEachEndsEach(k.pending, o, o.deliveries.keys, k.Open(), Ledgers.GraceOver(o, view, nowMs, graceMs), r);
  }

  /** What the grace rule says of an open request: over, once a Stop was counted since its delivery and none began. */
  function GraceRule(k: Desk, r: RequestId, view: TurnView, nowMs: nat, graceMs: nat): Option<Ledgers.Ending> {
    var o := Ledgers.ObserveStop(k.ledger, Ledgers.AsStop(view.stop));
    if r in o.deliveries.vals && o.deliveries.vals[r].firstStop.Some? && Ledgers.GraceOver(o, view, nowMs, graceMs)
    then Ledgers.GRACE_RAN_OUT else None
  }

  /** By prompt ids: what is held of a delivery decides its judgement, but for the grace rule's part. */
  lemma JudgedIs(k: Desk, r: RequestId, view: TurnView, nowMs: nat, graceMs: nat)
    requires k.ledger.byPromptId && r in k.ledger.deliveries.vals
    ensures var d := k.ledger.deliveries.vals[r];
            JudgedNow(k, r, view, nowMs, graceMs) ==
            if d.ended.Some? then d.ended
            else if d.boundTo.Some? && !d.graced then None
            else GraceRule(k, r, view, nowMs, graceMs)
  {
    ObservedIsAside(k.ledger, Ledgers.AsStop(view.stop));
    assert SameVerdict(k.ledger.deliveries.vals[r],
                       Ledgers.ObserveStop(k.ledger, Ledgers.AsStop(view.stop)).deliveries.vals[r]);
    hide Ledgers.ObserveStop, Ledgers.GraceOver;
  }

  /** In binding mode, what has become of an open request decides its judgement. */
  lemma JudgementByTurn(w: World, r: RequestId, view: TurnView, nowMs: nat, graceMs: nat)
    requires Agreed(w) && w.s.tracker.binding && w.s.desk.IsOpen(r)
    // A request of the running turn is left alone.
    ensures r in w.s.tracker.CurrentRequests() ==> JudgedNow(w.s.desk, r, view, nowMs, graceMs).None?
    // A request of a turn that ended gets the first verdict from that end on under its id, or the grace rule's.
    ensures forall j: nat :: j < |w.h.ends| && r in w.h.ends[j].turn.requests ==>
              JudgedNow(w.s.desk, r, view, nowMs, graceMs) ==
              VerdictFrom(w.h.ends, j).OrElse(GraceRule(w.s.desk, r, view, nowMs, graceMs))
    // One never taken into a turn is left to the grace rule.
    ensures r !in w.h.starts ==>
              JudgedNow(w.s.desk, r, view, nowMs, graceMs) == GraceRule(w.s.desk, r, view, nowMs, graceMs)
  {
    StartsOnce(w);
    var d := w.s.desk.ledger.deliveries.vals[r];
    assert w.s.desk.ledger.byPromptId;
    assert AgreeOn(w.s.tracker, d, r) && Judged(w.s.tracker, d, r, w.h.ends) by { hide Kept, NoDup; }
    hide Agreed, JudgedNow, GraceRule, NoDup, RequestsOf, VerdictFrom;
    JudgedIs(w.s.desk, r, view, nowMs, graceMs);
    forall j: nat | j < |w.h.ends| && r in w.h.ends[j].turn.requests
      ensures JudgedBy(d, r, w.h.ends, j) && r !in w.s.tracker.CurrentRequests() {
      assert r in w.h.starts by { RequestsOfAt(w.h.ends, j); StartsAreAll(w, r); }
      var i: nat :| JudgedBy(d, r, w.h.ends, i);
      assert i == j;
    }
  }

  lemma StartsAreAll(w: World, r: RequestId)
    requires Agreed(w) && r in RequestsOf(w.h.ends)
    ensures r in w.h.starts
  {}

  // The turn's own Stop.

  /** The records that end the turn running now, by a Stop or a failure of its own. */
  predicate EndsCurrent(t: Tracker, id: Option<PromptId>, end: TurnEnd) {
    && t.binding && id.Some? && t.IsCurrent(t.Resolve(id.value))
    && t.current.value.turn.startedAtMs < end.AtMs()
  }

  lemma FinishedEndsCurrent(t: Tracker, h: History, id: Option<PromptId>, session: Option<string>, end: TurnEnd)
    requires Kept(Followed(t, h)) && EndsCurrent(t, id, end)
    ensures var e := Finished(t, id, session, end);
            && Noted(h, e.calls).ends == h.ends + EndedBy(t, end)
            && e.state.CurrentRequests() == [] && e.state.binding
  {
    var x := t.(lastEndMs := Some(end.AtMs()));
    KeptAside(t, x, h);
    EndKeeps(x, h, end);
    FinishedIsEnd(t, id, session, end);
    hide Kept, Finished, EndsCurrent, Noted;
    assert EndedBy(x, end) == EndedBy(t, end);
  }

  lemma KeptAside(t: Tracker, x: Tracker, h: History)
    requires Kept(Followed(t, h)) && x == t.(lastEndMs := x.lastEndMs)
    ensures Kept(Followed(x, h))
  {}

  lemma FinishedIsEnd(t: Tracker, id: Option<PromptId>, session: Option<string>, end: TurnEnd)
    requires EndsCurrent(t, id, end)
    ensures Finished(t, id, session, end) == End(t.(lastEndMs := Some(end.AtMs())), end)
    ensures End(t.(lastEndMs := Some(end.AtMs())), end).state.binding
  {
    var x := t.(lastEndMs := Some(end.AtMs()));
    Nothing(End(x, end).calls);
    hide PutCapped, EndCalls;
  }

  /** What is left of an open request of the turn that `end` ends. */
  ghost predicate Answered(before: Pending, after: Pending, end: TurnEnd) {
    var verdict := Ledgers.EndingOf(BoundEnd(end));
    if verdict.Some? then after == EndPending(before, verdict.value)
    else after == before || after == EndPending(before, Ledgers.GRACE_RAN_OUT.value)
  }

  /** The requests of a turn that just ended are judged by its end, and treated so. */
  lemma LastEndAnswers(w: World, r: RequestId, view: TurnView, nowMs: nat, graceMs: nat)
    requires Agreed(w) && w.s.tracker.binding && w.s.desk.IsOpen(r)
    requires w.h.ends != [] && r in w.h.ends[|w.h.ends| - 1].turn.requests
    ensures var n := EndUnanswered(w.s.desk, view, nowMs, graceMs).pending;
            r in n.vals && Answered(w.s.desk.pending.vals[r], n.vals[r], w.h.ends[|w.h.ends| - 1].end)
  {
    hide EndUnanswered, JudgedNow, EndPending;
    JudgementByTurn(w, r, view, nowMs, graceMs);
    BooksAreShared(w);
    hide Agreed;
    EndsTheJudged(w.s.desk, view, nowMs, graceMs, r);
    var last := |w.h.ends| - 1;
    assert VerdictFrom(w.h.ends, last) == Verdict(w.h.ends[last]) == Ledgers.EndingOf(BoundEnd(w.h.ends[last].end));
    hide Ledgers.EndingOf;
  }

  /** An open request of the turn that a Stop's or a failure's record ends is answered by that end. */
  lemma OwnEndAnswers(w: World, rec: Record, view: TurnView, nowMs: nat, graceMs: nat, r: RequestId)
    requires Agreed(w) && w.s.desk.IsOpen(r) && r in w.s.tracker.CurrentRequests()
    requires IsEnd(rec) && EndsCurrent(w.s.tracker, IdIn(rec), EndIn(rec))
    ensures var n := Heard(w.s, rec, view, nowMs, graceMs).desk.pending;
            r in n.vals && Answered(w.s.desk.pending.vals[r], n.vals[r], EndIn(rec))
  {
    var t, end := w.s.tracker, EndIn(rec);
    var session := if rec.StopSeen? then rec.stop.sessionId.OrElse(rec.session)
      else rec.failure.sessionId.OrElse(rec.session);
    var calls := Apply(t, rec).calls;
    assert Apply(t, rec) == Finished(t, IdIn(rec), session, end) by { hide Finished; }
    var n := World(Tell(w.s, rec), Noted(w.h, calls), w.issued);
    JointIsFlat(t, w.s.desk, w.h, w.issued);
    hide Joint, Kept, Noted, OnCalls, Finished, Apply, EndUnanswered;
    TellAgrees(w.s, w.h, w.issued, rec);
    FinishedEndsCurrent(t, w.h, IdIn(rec), session, end);
    OnCallsKeepPending(w.s.desk, calls);
    assert n.h.ends == w.h.ends + [Ended(t.current.value.turn, end)];
    LastEndAnswers(n, r, view, nowMs, graceMs);
  }

  /**
   A Stop that ends the running turn: right after its record, every open
   request of that turn is answered with exactly that Stop's final text, or,
   without one, ended with an error, unless it was already being answered.
   With background work left only the grace rule can end it.
   */
  lemma StopAnswers(w: World, stop: StopRecord, session: Option<string>, view: TurnView, nowMs: nat, graceMs: nat,
                    r: RequestId)
    requires Agreed(w) && w.s.desk.IsOpen(r) && r in w.s.tracker.CurrentRequests()
    requires EndsCurrent(w.s.tracker, stop.promptId, StopEnd(stop))
    ensures var before := w.s.desk.pending.vals[r];
            var after := Next(w.s, TurnStopped(stop, session, view, nowMs), graceMs).desk.pending;
            && r in after.vals
            && (stop.background == Some(false) && before.answering.None? ==>
                  after.vals[r] == if stop.finalText.Some? then Pending(false, stop.finalText) else Pending(true, None))
            && (stop.background != Some(false) ==>
                  after.vals[r] == before || after.vals[r] == EndPending(before, Ledgers.GRACE_RAN_OUT.value))
  {
    var o := Observed(w.s, Ledgers.TurnStop(stop, None));
    hide Joint, Finished, Heard, Ledgers.ObserveStop, EndsCurrent;
    ObservedAgrees(w.s, w.h, w.issued, Ledgers.TurnStop(stop, None));
    OwnEndAnswers(World(o, w.h, w.issued), StopSeen(stop, session), view, nowMs, graceMs, r);
  }

  /** A failure that ends the running turn ends every open request of that turn with an error. */
  lemma FailureAnswers(w: World, failure: FailureRecord, session: Option<string>, view: TurnView, nowMs: nat,
                       graceMs: nat, r: RequestId)
    requires Agreed(w) && w.s.desk.IsOpen(r) && r in w.s.tracker.CurrentRequests()
    requires EndsCurrent(w.s.tracker, failure.promptId, FailureEnd(failure.atMs, failure.error, failure.errorDetails))
    ensures var before := w.s.desk.pending.vals[r];
            var after := Next(w.s, TurnFailed(failure, session, view, nowMs), graceMs).desk.pending;
            r in after.vals && (before.answering.None? ==> after.vals[r] == Pending(true, None))
  {
    var o := Observed(w.s, Ledgers.FailureAsStop(failure));
    hide Joint, Finished, Heard, Ledgers.ObserveStop, EndsCurrent;
    ObservedAgrees(w.s, w.h, w.issued, Ledgers.FailureAsStop(failure));
    OwnEndAnswers(World(o, w.h, w.issued), FailureSeen(failure, session), view, nowMs, graceMs, r);
  }

  lemma BooksAreShared(w: World)
    requires Agreed(w)
    ensures w.s.desk.pending.vals.Keys == w.s.desk.ledger.deliveries.vals.Keys
    ensures w.s.desk.ledger.byPromptId == w.s.tracker.binding
  {}

  lemma {:induction false} OnCallsKeepPending(k: Desk, calls: seq<Call>)
    ensures OnCalls(k, calls).pending == k.pending
  {
    if calls != [] {
      OnCallsKeepPending(k, calls[..|calls| - 1]);
    }
  }
}
