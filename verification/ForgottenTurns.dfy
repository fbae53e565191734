/**
 When a request is ended with another turn's verdict: never, but by a turn
 that bears the id of the request's own, forgotten by then, which left it to
 the grace rule. The last part is a run in which that happens.
 */
module ForgottenTurns {
  import opened Records
  import opened OrderedMaps
  import opened Turns
  import opened TurnHistory
  import opened Channels
  import opened Agreement
  import opened AgreementRuns
  import opened Outcomes
  import Ledgers

  // Whose verdict it is.

  /** The turns that ended went by different ids. */
  ghost predicate IdsDiffer(ends: seq<Ended>) {
    forall i, j :: 0 <= i < j < |ends| ==> ends[i].turn.promptId != ends[j].turn.promptId
  }

  /** Turn `j` gave no verdict, and turn `i` was the first after it, under the same id, to give one. */
  ghost predicate TakesOver(ends: seq<Ended>, j: nat, i: nat) {
    && j < i < |ends| && Verdict(ends[j]).None?
    && ends[i].turn.promptId == ends[j].turn.promptId && Verdict(ends[i]).Some?
    && forall k :: j < k < i && ends[k].turn.promptId == ends[j].turn.promptId ==> Verdict(ends[k]).None?
  }

  lemma {:induction false} VerdictIsOwn(ends: seq<Ended>, j: nat)
    requires j < |ends|
    ensures Verdict(ends[j]).Some? ==> VerdictFrom(ends, j) == Verdict(ends[j])
    ensures VerdictFrom(ends, j).None? ==>
              forall i :: j <= i < |ends| && ends[i].turn.promptId == ends[j].turn.promptId ==> Verdict(ends[i]).None?
  {
    hide Verdict;
    if j < |ends| - 1 {
      VerdictIsOwn(ends[..|ends| - 1], j);
    }
  }

  lemma LaterTakesOver(init: seq<Ended>, e: Ended, j: nat, i: nat)
    requires TakesOver(init, j, i)
    ensures TakesOver(init + [e], j, i) && (init + [e])[i] == init[i]
  {
    hide Verdict;
  }

  lemma LastTakesOver(init: seq<Ended>, e: Ended, j: nat)
    requires j < |init| && Verdict(init[j]).None? && Verdict(e).Some? && e.turn.promptId == init[j].turn.promptId
    requires forall i :: j <= i < |init| && init[i].turn.promptId == init[j].turn.promptId ==> Verdict(init[i]).None?
    ensures TakesOver(init + [e], j, |init|)
  {
    hide Verdict;
    assert forall i :: 0 <= i < |init| ==> (init + [e])[i] == init[i];
  }

  lemma {:induction false} VerdictIsWhose(ends: seq<Ended>, j: nat)
    requires j < |ends| && VerdictFrom(ends, j).Some? && Verdict(ends[j]).None?
    ensures exists i: nat :: TakesOver(ends, j, i) && VerdictFrom(ends, j) == Verdict(ends[i])
  {
    var init, e := ends[..|ends| - 1], ends[|ends| - 1];
    assert ends == init + [e];
    hide Verdict, TakesOver;
    if VerdictFrom(init, j).Some? {
      VerdictIsWhose(init, j);
      var i: nat :| TakesOver(init, j, i) && VerdictFrom(init, j) == Verdict(init[i]);
      LaterTakesOver(init, e, j, i);
    } else {
      VerdictIsOwn(init, j);
      LastTakesOver(init, e, j);
    }
  }

  /** Two turns cannot both be the first. */
  lemma OneTakesOver(ends: seq<Ended>, j: nat, i: nat, k: nat)
    requires TakesOver(ends, j, i) && TakesOver(ends, j, k)
    ensures i == k
  {}

  /**
   An open request of a turn that ended is judged by a turn's end that is not
   its own exactly when its own gave no verdict and a later turn under the
   same id gave one. It is then the first such turn's, more than ENDED_KEPT
   turns later; else it is its own turn's, or the grace rule's.
   */
  lemma AnotherTurnsVerdict(w: World, r: RequestId, view: Ledgers.TurnView, nowMs: nat, graceMs: nat, j: nat)
    requires Agreed(w) && w.s.tracker.binding && w.s.desk.IsOpen(r)
    requires j < |w.h.ends| && r in w.h.ends[j].turn.requests
    ensures var judged, own := JudgedNow(w.s.desk, r, view, nowMs, graceMs), Verdict(w.h.ends[j]);
            && (own.None? && judged.Some? && !judged.value.reason.NoTurnStarted? <==>
                exists i: nat :: TakesOver(w.h.ends, j, i))
            && (forall i: nat :: TakesOver(w.h.ends, j, i) ==>
                  judged == Verdict(w.h.ends[i]) && j + ENDED_KEPT < i && r !in w.h.ends[i].turn.requests)
            && (!(exists i: nat :: TakesOver(w.h.ends, j, i)) ==>
                  judged == own.OrElse(GraceRule(w.s.desk, r, view, nowMs, graceMs)))
  {
    var ends := w.h.ends;
    JudgementByTurn(w, r, view, nowMs, graceMs);
    VerdictIsOwn(ends, j);
    if VerdictFrom(ends, j).Some? && Verdict(ends[j]).None? {
      VerdictIsWhose(ends, j);
    }
    StartsOnce(w);
    EndsAreSpaced(w);
    VerdictsAreTurns(ends);
    hide Agreed, JudgedNow, VerdictFrom, Verdict, RequestsOf, NoDup;
    forall i: nat | TakesOver(ends, j, i)
      ensures VerdictFrom(ends, j) == Verdict(ends[i]) && j + ENDED_KEPT < i && r !in ends[i].turn.requests {
      var k: nat :| TakesOver(ends, j, k) && VerdictFrom(ends, j) == Verdict(ends[k]);
      OneTakesOver(ends, j, i, k);
    }
    hide TakesOver;
  }

  lemma EndsAreSpaced(w: World)
    requires Agreed(w)
    ensures Spaced(w.h.ends)
  {}

  /** No end's verdict reads like the grace rule's. */
  lemma VerdictsAreTurns(ends: seq<Ended>)
    ensures forall i :: 0 <= i < |ends| && Verdict(ends[i]).Some? ==> !Verdict(ends[i]).value.reason.NoTurnStarted?
  {}

  /**
   While no two turns ended under one id, as they cannot have done while no
   more than ENDED_KEPT + 1 turns ended, every open request of a turn that
   ended gets its own turn's verdict, or the grace rule's.
   */
  lemma OwnTurnsVerdict(w: World, r: RequestId, view: Ledgers.TurnView, nowMs: nat, graceMs: nat, j: nat)
    requires Agreed(w) && w.s.tracker.binding && w.s.desk.IsOpen(r)
    requires j < |w.h.ends| && r in w.h.ends[j].turn.requests
    requires IdsDiffer(w.h.ends) || |w.h.ends| <= ENDED_KEPT + 1
    ensures JudgedNow(w.s.desk, r, view, nowMs, graceMs) ==
            Verdict(w.h.ends[j]).OrElse(GraceRule(w.s.desk, r, view, nowMs, graceMs))
  {
    EndsAreSpaced(w);
    hide Agreed, JudgedNow, Verdict, GraceRule;
    AnotherTurnsVerdict(w, r, view, nowMs, graceMs, j);
    assert IdsDiffer(w.h.ends);
    assert forall i: nat :: !TakesOver(w.h.ends, j, i);
  }

  // A run in which another turn's text answers a request.

  /** An open request left to the grace rule by its turn `p`. */
  ghost predicate LeftOpen(k: Desk, r: RequestId, p: PromptId) {
    && k.pending.vals.Keys == k.ledger.deliveries.vals.Keys && k.ledger.byPromptId
    && k.IsOpen(r) && k.pending.vals[r].answering.None?
    && var d := k.ledger.deliveries.vals[r]; d.boundTo == Some(p) && d.graced && d.ended.None?
  }

  /** The last Stop was at `at`. */
  predicate StoppedAt(k: Desk, at: nat) {
    k.ledger.lastStop.Some? && k.ledger.lastStop.value.stop.atMs == at
  }

  /** The hooks write their files, and those of the latest Stop and tool call are not read yet. */
  const NOTHING_SEEN := Ledgers.TurnView(None, None, true)

  function TypedSubmit(p: PromptId, at: nat): SubmitRecord {
    SubmitRecord(None, Some(p), None, at)
  }

  function FinalStop(p: PromptId, text: string, at: nat): StopRecord {
    StopRecord(None, Some(p), Some(false), Some(text), at)
  }

  function TypedAt(q: PromptId, at: nat): Event {
    PromptSubmitted(TypedSubmit(q, at), None, NOTHING_SEEN, at)
  }

  function StoppedWith(q: PromptId, text: string, at: nat): Event {
    TurnStopped(FinalStop(q, text, at), None, NOTHING_SEEN, at)
  }

  lemma TypedTells(s: Server, p: PromptId, at: nat)
    requires s.tracker.binding && s.tracker.current.None? && p !in s.tracker.ended.vals && p !in s.tracker.alias.vals
    ensures var rec := SubmitHeard(s, TypedSubmit(p, at), None);
            && Apply(s.tracker, rec) == BeginLocal(s.tracker, p, at, None)
            && Tell(s, rec) == s.(tracker := BeginLocal(s.tracker, p, at, None).state)
  {
    OnOneCall(s.desk, LocalTurnStarted(LocalOf(p, None), at));
    assert Apply(s.tracker, SubmitHeard(s, TypedSubmit(p, at), None)) == BeginLocal(s.tracker, p, at, None) by {
      hide OnCalls, PutCapped;
    }
    hide Apply, OnCalls;
  }

  /** While the grace since the last Stop lasts, ending what is unanswered leaves the request as it was. */
  lemma StaysOpenInGrace(k: Desk, r: RequestId, p: PromptId, at: nat, nowMs: nat, graceMs: nat)
    requires LeftOpen(k, r, p) && StoppedAt(k, at) && nowMs - at < graceMs
    ensures var n := EndUnanswered(k, NOTHING_SEEN, nowMs, graceMs); LeftOpen(n, r, p) && StoppedAt(n, at)
  {
    EndsTheJudged(k, NOTHING_SEEN, nowMs, graceMs, r);
    hide Ledgers.UnansweredIn, EndEach;
    EndEachOpensNone(k.pending, Ledgers.UnansweredNow(k.ledger, NOTHING_SEEN, nowMs, graceMs, k.Open()).1);
  }

  lemma TypedTurnBegins(s: Server, r: RequestId, p: PromptId, q: PromptId, at: nat, graceMs: nat)
    requires s.tracker.binding && s.tracker.current.None? && q !in s.tracker.ended.vals && q !in s.tracker.alias.vals
    requires LeftOpen(s.desk, r, p) && StoppedAt(s.desk, at) && 1 < graceMs
    ensures var n := Next(s, TypedAt(q, at + 1), graceMs);
            && n.tracker == BeginLocal(s.tracker, q, at + 1, None).state
            && LeftOpen(n.desk, r, p) && StoppedAt(n.desk, at)
  {
    TypedTells(s, q, at + 1);
    StaysOpenInGrace(s.desk, r, p, at, at + 1, graceMs);
    hide Tell, EndUnanswered, SubmitHeard, LeftOpen, BeginLocal;
  }

  /** What the running turn's own Stop does to the tracker, and, with its calls, to the ledger. */
  lemma OwnStopTells(s: Server, q: PromptId, stop: StopRecord)
    requires s.tracker.binding && s.tracker.IsCurrent(q) && q !in s.tracker.alias.vals
    requires stop.promptId == Some(q) && s.tracker.current.value.turn.startedAtMs < stop.atMs
    ensures var n := Tell(s, StopSeen(stop, None));
            && n.desk == s.desk.(ledger := Ledgers.TurnEnded(s.desk.ledger, q, Ledgers.BoundStop(stop), s.desk.Open()))
            && n.tracker.binding && n.tracker.current.None? && n.tracker.alias == s.tracker.alias
  {
    var calls := EndCalls(s.tracker.current.value.turn, StopEnd(stop));
    var e := Apply(s.tracker, StopSeen(stop, None));
    assert e.calls == [] + calls && e.state.binding && e.state.current.None? && e.state.alias == s.tracker.alias by {
      hide OnCalls, PutCapped;
    }
    Nothing(calls);
    OnEndCalls(s.desk, s.tracker.current.value.turn, StopEnd(stop));
    hide Apply, OnCalls;
  }

  /** What the Stop of the running turn does: counted, then its turn ended, then the unanswered. */
  function AfterStop(k: Desk, q: PromptId, stop: StopRecord): Desk {
    var counted := Ledgers.ObserveStop(k.ledger, Some(Ledgers.TurnStop(stop, None)));
    k.(ledger := Ledgers.TurnEnded(counted, q, Ledgers.BoundStop(stop), k.Open()))
  }

  lemma StopDoes(s: Server, q: PromptId, stop: StopRecord, nowMs: nat, graceMs: nat)
    requires s.tracker.binding && s.tracker.IsCurrent(q) && q !in s.tracker.alias.vals
    requires stop.promptId == Some(q) && s.tracker.current.value.turn.startedAtMs < stop.atMs
    ensures var n := Next(s, TurnStopped(stop, None, NOTHING_SEEN, nowMs), graceMs);
            && n.desk == EndUnanswered(AfterStop(s.desk, q, stop), NOTHING_SEEN, nowMs, graceMs)
            && n.tracker.binding && n.tracker.current.None? && n.tracker.alias == s.tracker.alias
  {
    hide Ledgers.ObserveStop, Ledgers.TurnEnded, EndUnanswered, Tell;
    OwnStopTells(Observed(s, Ledgers.TurnStop(stop, None)), q, stop);
  }

  lemma StopPassesBy(k: Desk, r: RequestId, p: PromptId, q: PromptId, at: nat, stop: StopRecord)
    requires LeftOpen(k, r, p) && StoppedAt(k, at) && at < stop.atMs && q != p
    ensures LeftOpen(AfterStop(k, q, stop), r, p) && StoppedAt(AfterStop(k, q, stop), stop.atMs)
  {
    ObservedIsAside(k.ledger, Some(Ledgers.TurnStop(stop, None)));
  }

  lemma StopJudges(k: Desk, r: RequestId, p: PromptId, stop: StopRecord)
    requires LeftOpen(k, r, p) && stop.background == Some(false)
    ensures var n := AfterStop(k, p, stop);
            && n.ledger.byPromptId && n.IsOpen(r) && n.pending.vals[r].answering.None?
            && n.pending.vals.Keys == n.ledger.deliveries.vals.Keys
            && n.ledger.deliveries.vals[r].ended == Some(Ledgers.Ending(Ledgers.ItsTurnEnded, stop.finalText, None))
  {
    ObservedIsAside(k.ledger, Some(Ledgers.TurnStop(stop, None)));
    hide Ledgers.ObserveStop;
  }

  /** A Stop of a turn under another id passes the request by. */
  lemma OtherStopPasses(s: Server, r: RequestId, p: PromptId, q: PromptId, text: string, at: nat, graceMs: nat)
    requires s.tracker.binding && s.tracker.IsCurrent(q) && q !in s.tracker.alias.vals && q != p
    requires s.tracker.current.value.turn.startedAtMs <= at + 1 && 1 < graceMs
    requires LeftOpen(s.desk, r, p) && StoppedAt(s.desk, at)
    ensures var n := Next(s, StoppedWith(q, text, at + 2), graceMs);
            && n.tracker.binding && n.tracker.current.None? && n.tracker.alias == s.tracker.alias
            && LeftOpen(n.desk, r, p) && StoppedAt(n.desk, at + 2)
  {
    var stop := FinalStop(q, text, at + 2);
    StopDoes(s, q, stop, at + 2, graceMs);
    var k := AfterStop(s.desk, q, stop);
    hide LeftOpen, Next, EndUnanswered, AfterStop;
    StopPassesBy(s.desk, r, p, q, at, stop);
    StaysOpenInGrace(k, r, p, at + 2, at + 2, graceMs);
  }

  /** The Stop of a turn that bears the forgotten id answers the request left behind with its own text. */
  lemma StopAnswersLeftBehind(s: Server, r: RequestId, p: PromptId, text: string, at: nat, graceMs: nat)
    requires s.tracker.binding && s.tracker.IsCurrent(p) && p !in s.tracker.alias.vals
    requires s.tracker.current.value.turn.startedAtMs <= at + 1
    requires LeftOpen(s.desk, r, p)
    ensures var n := Next(s, StoppedWith(p, text, at + 2), graceMs).desk.pending;
            r in n.vals && n.vals[r] == Pending(false, Some(text))
  {
    var stop := FinalStop(p, text, at + 2);
    StopDoes(s, p, stop, at + 2, graceMs);
    var k := AfterStop(s.desk, p, stop);
    hide LeftOpen, Next, EndUnanswered, AfterStop;
    StopJudges(s.desk, r, p, stop);
    AnsweredNow(k, r, text, NOTHING_SEEN, at + 2, graceMs);
  }

  lemma AnsweredNow(k: Desk, r: RequestId, text: string, view: Ledgers.TurnView, nowMs: nat, graceMs: nat)
    requires k.ledger.byPromptId && k.pending.vals.Keys == k.ledger.deliveries.vals.Keys
    requires k.IsOpen(r) && k.pending.vals[r].answering.None?
    requires k.ledger.deliveries.vals[r].ended == Some(Ledgers.Ending(Ledgers.ItsTurnEnded, Some(text), None))
    ensures var n := EndUnanswered(k, view, nowMs, graceMs).pending;
            r in n.vals && n.vals[r] == Pending(false, Some(text))
  {
    hide EndUnanswered, Ledgers.ObserveStop;
    ObservedIsAside(k.ledger, Ledgers.AsStop(view.stop));
    EndsTheJudged(k, view, nowMs, graceMs, r);
  }

  // The run itself.

  /** A turn under `p` ended first, then, in order, one under each id of `done`. */
  ghost predicate EndedUnder(ends: seq<Ended>, p: PromptId, done: seq<PromptId>) {
    && |ends| == |done| + 1 && ends[0].turn.promptId == p
    && forall i :: 0 <= i < |done| ==> ends[i + 1].turn.promptId == done[i]
  }

  /** Between two turns: the request's turn `p` ended first, then those of `done`, the last at `at`. */
  ghost predicate Behind(w: World, r: RequestId, p: PromptId, done: seq<PromptId>, at: nat) {
    && Agreed(w) && w.s.tracker.binding && w.s.tracker.current.None? && w.s.tracker.alias == Empty()
    && EndedUnder(w.h.ends, p, done) && r in w.h.ends[0].turn.requests && Verdict(w.h.ends[0]).None?
    && LeftOpen(w.s.desk, r, p) && StoppedAt(w.s.desk, at)
  }

  /** What is remembered ended lately, and the first of more turns than are remembered is forgotten. */
  lemma RemembersTheLast(w: World, q: PromptId)
    requires Agreed(w)
    ensures q in w.s.tracker.ended.vals ==>
              exists i :: 0 <= i < |w.h.ends| && |w.h.ends| - ENDED_KEPT <= i && w.h.ends[i].turn.promptId == q
  {
    var t := w.s.tracker;
    if q in t.ended.vals {
      var k :| 0 <= k < |t.ended.keys| && t.ended.keys[k] == q;
      var i := k + (|w.h.ends| - |t.ended.keys|);
      assert t.ended.keys[i - (|w.h.ends| - |t.ended.keys|)] == w.h.ends[i].turn.promptId;
      assert w.h.ends[i].turn.promptId == q;
    }
  }

  lemma IsNew(w: World, r: RequestId, p: PromptId, done: seq<PromptId>, at: nat, q: PromptId)
    requires Behind(w, r, p, done, at) && q !in done
    requires q != p || |done| >= ENDED_KEPT
    ensures q !in w.s.tracker.ended.vals && q !in w.s.tracker.alias.vals
  {
    RemembersTheLast(w, q);
    hide Agreed, LeftOpen, EndedUnder;
    NotAmongLast(w.h.ends, p, done, q);
  }

  lemma NotAmongLast(ends: seq<Ended>, p: PromptId, done: seq<PromptId>, q: PromptId)
    requires EndedUnder(ends, p, done) && q !in done && (q != p || |done| >= ENDED_KEPT)
    ensures forall i :: 0 <= i < |ends| && |ends| - ENDED_KEPT <= i ==> ends[i].turn.promptId != q
  {
    forall i | 0 < i < |ends| ensures ends[i].turn.promptId != q {
      assert ends[i].turn.promptId == done[i - 1];
    }
  }

  /** A turn typed and stopped, after which things are as they were, but for one turn more that ended. */
  lemma TurnPasses(w: World, r: RequestId, p: PromptId, done: seq<PromptId>, at: nat, q: PromptId, text: string,
                   graceMs: nat)
    requires Behind(w, r, p, done, at) && q !in done && q != p && 1 < graceMs
    ensures Behind(Live(Live(w, TypedAt(q, at + 1), graceMs), StoppedWith(q, text, at + 2), graceMs),
                   r, p, done + [q], at + 2)
  {
    var b := Live(w, TypedAt(q, at + 1), graceMs);
    var n := Live(b, StoppedWith(q, text, at + 2), graceMs);
    IsNew(w, r, p, done, at, q);
    TypedTurnGoesOn(w, r, p, at, q, graceMs);
    StopGoesOn(b, r, p, at, q, text, graceMs);
    hide *;
    var e := Ended(b.s.tracker.current.value.turn, StopEnd(FinalStop(q, text, at + 2)));
    assert Behind(n, r, p, done + [q], at + 2) by { StaysBehind(w, n, r, p, done, at, e); }
  }

  lemma OneMoreEnded(ends: seq<Ended>, e: Ended, p: PromptId, done: seq<PromptId>)
    requires EndedUnder(ends, p, done)
    ensures EndedUnder(ends + [e], p, done + [e.turn.promptId])
  {}

  lemma EndsBegin(ends: seq<Ended>, e: Ended, p: PromptId, done: seq<PromptId>)
    requires EndedUnder(ends, p, done)
    ensures 0 < |ends| && (ends + [e])[0] == ends[0]
  {}

  lemma StaysBehind(w: World, n: World, r: RequestId, p: PromptId, done: seq<PromptId>, at: nat, e: Ended)
    requires Behind(w, r, p, done, at) && n.h.ends == w.h.ends + [e]
    requires Agreed(n) && n.s.tracker.binding && n.s.tracker.current.None? && n.s.tracker.alias == w.s.tracker.alias
    requires LeftOpen(n.s.desk, r, p) && StoppedAt(n.s.desk, at + 2)
    ensures Behind(n, r, p, done + [e.turn.promptId], at + 2)
  {
    hide Agreed, LeftOpen, StoppedAt, EndedUnder;
    OneMoreEnded(w.h.ends, e, p, done);
    assert n.h.ends[0] == w.h.ends[0] by { EndsBegin(w.h.ends, e, p, done); }
  }

  lemma TypedTurnGoesOn(w: World, r: RequestId, p: PromptId, at: nat, q: PromptId, graceMs: nat)
    requires Agreed(w) && w.s.tracker.binding && w.s.tracker.current.None?
    requires q !in w.s.tracker.ended.vals && q !in w.s.tracker.alias.vals
    requires LeftOpen(w.s.desk, r, p) && StoppedAt(w.s.desk, at) && 1 < graceMs
    ensures var b := Live(w, TypedAt(q, at + 1), graceMs);
            && Agreed(b) && b.h.ends == w.h.ends && LeftOpen(b.s.desk, r, p) && StoppedAt(b.s.desk, at)
            && b.s.tracker.binding && b.s.tracker.alias == w.s.tracker.alias
            && b.s.tracker.IsCurrent(q) && b.s.tracker.CurrentRequests() == []
            && b.s.tracker.current.value.turn.startedAtMs == at + 1
  {
    TypedTurnBegins(w.s, r, p, q, at, graceMs);
    TypedTurnNotes(w, q, at + 1, graceMs);
    hide Agreed, LeftOpen, Next;
    LiveAgrees(w, TypedAt(q, at + 1), graceMs);
  }

  lemma StopGoesOn(b: World, r: RequestId, p: PromptId, at: nat, q: PromptId, text: string, graceMs: nat)
    requires Agreed(b) && b.s.tracker.binding && b.s.tracker.IsCurrent(q) && q !in b.s.tracker.alias.vals && q != p
    requires b.s.tracker.current.value.turn.startedAtMs == at + 1 && b.s.tracker.CurrentRequests() == []
    requires LeftOpen(b.s.desk, r, p) && StoppedAt(b.s.desk, at) && 1 < graceMs
    ensures var n := Live(b, StoppedWith(q, text, at + 2), graceMs);
            && Agreed(n) && n.s.tracker.binding && n.s.tracker.current.None? && n.s.tracker.alias == b.s.tracker.alias
            && n.h.ends == b.h.ends + [Ended(b.s.tracker.current.value.turn, StopEnd(FinalStop(q, text, at + 2)))]
            && LeftOpen(n.s.desk, r, p) && StoppedAt(n.s.desk, at + 2)
  {
    OtherStopPasses(b.s, r, p, q, text, at, graceMs);
    OwnStopNotes(b, q, FinalStop(q, text, at + 2), graceMs);
    hide Agreed, LeftOpen, Next;
    LiveAgrees(b, StoppedWith(q, text, at + 2), graceMs);
  }

  lemma TypedTurnNotes(w: World, q: PromptId, at: nat, graceMs: nat)
    requires w.s.tracker.binding && w.s.tracker.current.None?
    requires q !in w.s.tracker.ended.vals && q !in w.s.tracker.alias.vals
    ensures Live(w, TypedAt(q, at), graceMs).h.ends == w.h.ends
  {
    TypedTells(w.s, q, at);
    var calls := [LocalTurnStarted(LocalOf(q, None), at)];
    assert Noted(w.h, calls) == Note(w.h, calls[0]);
    hide Next, Tell, Noted;
  }

  lemma OwnStopNotes(w: World, q: PromptId, stop: StopRecord, graceMs: nat)
    requires Agreed(w) && w.s.tracker.binding && w.s.tracker.IsCurrent(q) && q !in w.s.tracker.alias.vals
    requires stop.promptId == Some(q) && w.s.tracker.current.value.turn.startedAtMs < stop.atMs
    ensures Live(w, TurnStopped(stop, None, NOTHING_SEEN, stop.atMs), graceMs).h.ends ==
            w.h.ends + [Ended(w.s.tracker.current.value.turn, StopEnd(stop))]
  {
    hide Next, Noted, Finished, Joint, Kept;
    LiveNotes(w, stop, graceMs);
    hide Live;
    JointIsFlat(w.s.tracker, w.s.desk, w.h, w.issued);
    FinishedEndsCurrent(w.s.tracker, w.h, Some(q), stop.sessionId, StopEnd(stop));
  }

  lemma LiveNotes(w: World, stop: StopRecord, graceMs: nat)
    ensures Live(w, TurnStopped(stop, None, NOTHING_SEEN, stop.atMs), graceMs).h ==
            Noted(w.h, Finished(w.s.tracker, stop.promptId, stop.sessionId, StopEnd(stop)).calls)
  {
    assert stop.sessionId.OrElse(None) == stop.sessionId;
    hide Next, Noted, Finished;
  }

  function MessageAt(r: RequestId, p: PromptId, at: nat): Event {
    PromptSubmitted(SubmitRecord(None, Some(p), Some(r), at), None, NOTHING_SEEN, at)
  }

  /** A Stop that leaves background work. */
  function WorkingStop(p: PromptId, at: nat): StopRecord {
    StopRecord(None, Some(p), Some(true), None, at)
  }

  /** A request is accepted, taken into a turn `p`, and left by it to the grace rule. */
  function Beginning(r: RequestId, p: PromptId): seq<Event> {
    [Accept(r, NOTHING_SEEN, 0), MessageAt(r, p, 0), TurnStopped(WorkingStop(p, 1), None, NOTHING_SEEN, 1)]
  }

  /** An open request alone, bound to `id` if it was taken into a turn, and not ended; no Stop came yet. */
  ghost predicate Alone(k: Desk, r: RequestId, id: Option<PromptId>) {
    && k.pending.vals.Keys == {r} && k.ledger.deliveries.vals.Keys == {r} && k.ledger.byPromptId
    && k.pending.vals[r] == Pending(false, None) && k.ledger.lastStop.None?
    && var d := k.ledger.deliveries.vals[r]; d.boundTo == id && !d.graced && d.ended.None?
  }

  lemma AcceptsFirst(r: RequestId, graceMs: nat)
    ensures var n := Next(Channels.Init(true, None), Accept(r, NOTHING_SEEN, 0), graceMs);
            n.tracker == Turns.Init(true, None) && Alone(n.desk, r, None)
  {
    assert Ledgers.ObserveStop(Ledgers.Init(true), None) == Ledgers.Init(true);
    hide Ledgers.Quiet, Ledgers.ObserveStop;
  }

  lemma FirstMessageTells(s: Server, r: RequestId, p: PromptId)
    requires s.tracker == Turns.Init(true, None) && Alone(s.desk, r, None)
    ensures var rec := SubmitHeard(s, SubmitRecord(None, Some(p), Some(r), 0), None);
            var e := Apply(s.tracker, rec);
            && e.state.binding && e.state.alias == Empty() && e.state.IsCurrent(p)
            && e.state.current.value.turn.startedAtMs == 0 && e.state.CurrentRequests() == [r]
            && e.calls == [PromptStarted(r, e.state.current.value.turn, 0, None)]
            && Alone(Tell(s, rec).desk, r, Some(p))
  {
    var rec := SubmitHeard(s, SubmitRecord(None, Some(p), Some(r), 0), None);
    assert rec.isOpen;
    var e := Apply(s.tracker, rec);
    assert e.calls == [PromptStarted(r, e.state.current.value.turn, 0, None)] by { hide OnCalls; }
    OnOneCall(s.desk, e.calls[0]);
    hide OnCalls;
  }

  lemma StaysAlone(k: Desk, r: RequestId, p: PromptId, nowMs: nat, graceMs: nat)
    requires Alone(k, r, Some(p))
    ensures Alone(EndUnanswered(k, NOTHING_SEEN, nowMs, graceMs), r, Some(p))
  {
    EndsTheJudged(k, NOTHING_SEEN, nowMs, graceMs, r);
    hide Ledgers.UnansweredIn, EndEach;
    EndEachOpensNone(k.pending, Ledgers.UnansweredNow(k.ledger, NOTHING_SEEN, nowMs, graceMs, k.Open()).1);
  }

  lemma TakenAlone(w: World, r: RequestId, p: PromptId, graceMs: nat)
    requires w.s.tracker == Turns.Init(true, None) && Alone(w.s.desk, r, None) && w.h == NO_HISTORY
    ensures var n := Live(w, MessageAt(r, p, 0), graceMs);
            && n.s.tracker.binding && n.s.tracker.alias == Empty() && n.s.tracker.IsCurrent(p)
            && n.s.tracker.current.value.turn.startedAtMs == 0 && n.s.tracker.CurrentRequests() == [r]
            && Alone(n.s.desk, r, Some(p)) && n.h.ends == []
  {
    FirstMessageTells(w.s, r, p);
    var rec := SubmitHeard(w.s, SubmitRecord(None, Some(p), Some(r), 0), None);
    StaysAlone(Tell(w.s, rec).desk, r, p, 0, graceMs);
    var calls := Apply(w.s.tracker, rec).calls;
    assert Noted(w.h, calls) == Note(w.h, calls[0]);
    hide Apply, Alone, OnCalls, EndUnanswered, Noted;
  }

  lemma LeavesToGrace(k: Desk, r: RequestId, p: PromptId)
    requires Alone(k, r, Some(p))
    ensures var n := AfterStop(k, p, WorkingStop(p, 1)); LeftOpen(n, r, p) && StoppedAt(n, 1)
  {}

  lemma LeftByStop(w: World, r: RequestId, p: PromptId, graceMs: nat)
    requires Agreed(w) && w.s.tracker.binding && w.s.tracker.alias == Empty() && w.s.tracker.IsCurrent(p)
    requires w.s.tracker.current.value.turn.startedAtMs == 0 && w.s.tracker.CurrentRequests() == [r]
    requires Alone(w.s.desk, r, Some(p)) && w.h.ends == [] && 1 < graceMs
    ensures Behind(Live(w, TurnStopped(WorkingStop(p, 1), None, NOTHING_SEEN, 1), graceMs), r, p, [], 1)
  {
    var stop := WorkingStop(p, 1);
    var n := Live(w, TurnStopped(stop, None, NOTHING_SEEN, 1), graceMs);
    StopDoes(w.s, p, stop, 1, graceMs);
    OwnStopNotes(w, p, stop, graceMs);
    hide Agreed, Next, EndUnanswered, Alone, AfterStop, LeftOpen;
    LiveAgrees(w, TurnStopped(stop, None, NOTHING_SEEN, 1), graceMs);
    LeavesToGrace(w.s.desk, r, p);
    StaysOpenInGrace(AfterStop(w.s.desk, p, stop), r, p, 1, 1, graceMs);
    IsBehind(n, r, p, w.s.tracker.current.value.turn, stop);
    hide Live;
  }

  lemma IsBehind(n: World, r: RequestId, p: PromptId, turn: Turn, stop: StopRecord)
    requires Agreed(n) && n.s.tracker.binding && n.s.tracker.current.None? && n.s.tracker.alias == Empty()
    requires n.h.ends == [] + [Ended(turn, StopEnd(stop))] && turn.promptId == p && turn.requests == [r]
    requires stop.background == Some(true) && LeftOpen(n.s.desk, r, p) && StoppedAt(n.s.desk, 1)
    ensures Behind(n, r, p, [], 1)
  {
    hide Agreed, LeftOpen;
    Nothing([Ended(turn, StopEnd(stop))]);
  }

  lemma ReachMore(events: seq<Event>, event: Event, graceMs: nat)
    ensures Reach(true, None, events + [event], graceMs) == Live(Reach(true, None, events, graceMs), event, graceMs)
    ensures Possible(true, None, events, graceMs) && !event.Accept? && !event.Remove? ==>
              Possible(true, None, events + [event], graceMs)
  {
    assert (events + [event])[..|events|] == events;
    hide Live;
  }

  lemma ReachFirst(r: RequestId, graceMs: nat)
    ensures var w := Reach(true, None, [Accept(r, NOTHING_SEEN, 0)], graceMs);
            && Possible(true, None, [Accept(r, NOTHING_SEEN, 0)], graceMs) && Agreed(w)
            && w.s.tracker == Turns.Init(true, None) && Alone(w.s.desk, r, None) && w.h == NO_HISTORY
  {
    var first := Accept(r, NOTHING_SEEN, 0);
    var w0 := World(Channels.Init(true, None), NO_HISTORY, {});
    assert [first][..0] == [];
    assert Reach(true, None, [first], graceMs) == Live(w0, first, graceMs);
    AcceptsFirst(r, graceMs);
    InitAgrees(true, None);
    hide Agreed, Alone, Next;
    LiveAgrees(w0, first, graceMs);
  }

  lemma BeginningLeaves(r: RequestId, p: PromptId, graceMs: nat)
    requires 1 < graceMs
    ensures Possible(true, None, Beginning(r, p), graceMs)
    ensures Behind(Reach(true, None, Beginning(r, p), graceMs), r, p, [], 1)
  {
    var a, b := [Accept(r, NOTHING_SEEN, 0)], MessageAt(r, p, 0);
    var c := TurnStopped(WorkingStop(p, 1), None, NOTHING_SEEN, 1);
    assert Beginning(r, p) == a + [b] + [c];
    assert !b.Accept? && !b.Remove?;
    ReachFirst(r, graceMs);
    ReachMore(a, b, graceMs);
    ReachMore(a + [b], c, graceMs);
    hide Live, Behind, Reach, Possible, Alone, Agreed;
    var w := Reach(true, None, a, graceMs);
    TakenAlone(w, r, p, graceMs);
    LiveAgrees(w, b, graceMs);
    LeftByStop(Live(w, b, graceMs), r, p, graceMs);
  }

  /** A turn typed under each id in `qs`, and stopped, two milliseconds a turn. */
  function TurnsTyped(qs: seq<PromptId>, text: string): seq<Event> {
    if qs == [] then []
    else TurnsTyped(qs[..|qs| - 1], text) + TurnTyped(qs[|qs| - 1], text, 2 * |qs| - 1)
  }

  function TurnTyped(q: PromptId, text: string, at: nat): seq<Event> {
    [TypedAt(q, at + 1), StoppedWith(q, text, at + 2)]
  }

  lemma ReachTurn(events: seq<Event>, q: PromptId, text: string, at: nat, graceMs: nat)
    requires Possible(true, None, events, graceMs)
    ensures var more := events + TurnTyped(q, text, at);
            && Possible(true, None, more, graceMs)
            && Reach(true, None, more, graceMs) ==
               Live(Live(Reach(true, None, events, graceMs), TypedAt(q, at + 1), graceMs),
                    StoppedWith(q, text, at + 2), graceMs)
  {
    var a, b := TypedAt(q, at + 1), StoppedWith(q, text, at + 2);
    assert !a.Accept? && !a.Remove? && !b.Accept? && !b.Remove?;
    assert events + [a, b] == events + [a] + [b];
    hide Possible, Reach, Live, TypedAt, StoppedWith;
    ReachMore(events, a, graceMs);
    ReachMore(events + [a], b, graceMs);
  }

  lemma {:induction false} TurnsPass(r: RequestId, p: PromptId, qs: seq<PromptId>, text: string, graceMs: nat)
    requires NoDup(qs) && p !in qs && 1 < graceMs
    ensures var events := Beginning(r, p) + TurnsTyped(qs, text);
            && Possible(true, None, events, graceMs)
            && Behind(Reach(true, None, events, graceMs), r, p, qs, 2 * |qs| + 1)
  {
    hide Behind, Reach, Possible, Beginning, TurnTyped, Live, TypedAt, StoppedWith;
    if qs == [] {
      Nothing(Beginning(r, p));
      BeginningLeaves(r, p, graceMs);
    } else {
      var init, q := qs[..|qs| - 1], qs[|qs| - 1];
      assert qs == init + [q] && q !in init;
      TurnsPass(r, p, init, text, graceMs);
      var events := Beginning(r, p) + TurnsTyped(init, text);
      ReachTurn(events, q, text, 2 * |init| + 1, graceMs);
      TurnPasses(Reach(true, None, events, graceMs), r, p, init, 2 * |init| + 1, q, text, graceMs);
      Assoc(Beginning(r, p), TurnsTyped(init, text), TurnTyped(q, text, 2 * |qs| - 1));
    }
  }

  /** The request of the first turn that ended is answered with the text of the last one, which bears its id. */
  ghost predicate AnsweredByAnother(w: World, r: RequestId, text: string) {
    var last := |w.h.ends| - 1;
    && r in w.s.desk.pending.vals && w.s.desk.pending.vals[r] == Pending(false, Some(text))
    && 0 < last && r in w.h.ends[0].turn.requests && r !in w.h.ends[last].turn.requests
    && TakesOver(w.h.ends, 0, last)
    && w.h.ends[last].end.StopEnd? && w.h.ends[last].end.stop.finalText == Some(text)
  }

  /** Once its turn is forgotten, a turn typed under its id answers the request with a text of its own. */
  lemma ForgottenIsAnswered(w: World, r: RequestId, p: PromptId, done: seq<PromptId>, at: nat, text: string,
                            graceMs: nat)
    requires Behind(w, r, p, done, at) && p !in done && |done| >= ENDED_KEPT && 1 < graceMs
    ensures AnsweredByAnother(Live(Live(w, TypedAt(p, at + 1), graceMs), StoppedWith(p, text, at + 2), graceMs),
                              r, text)
  {
    IsNew(w, r, p, done, at, p);
    TypedTurnGoesOn(w, r, p, at, p, graceMs);
    var b := Live(w, TypedAt(p, at + 1), graceMs);
    StopAnswersLeftBehind(b.s, r, p, text, at, graceMs);
    OwnStopNotes(b, p, FinalStop(p, text, at + 2), graceMs);
    var e := Ended(b.s.tracker.current.value.turn, StopEnd(FinalStop(p, text, at + 2)));
    assert Verdict(e).Some?;
    hide Agreed, LeftOpen, Next, Verdict;
    OnlyTakesOver(w.h.ends, e, p, done);
    hide TakesOver;
  }

  lemma OnlyTakesOver(ends: seq<Ended>, e: Ended, p: PromptId, done: seq<PromptId>)
    requires EndedUnder(ends, p, done) && p !in done && Verdict(ends[0]).None?
    requires e.turn.promptId == p && Verdict(e).Some?
    ensures TakesOver(ends + [e], 0, |done| + 1)
  {
    hide Verdict;
    forall k | 0 < k < |ends| ensures ends[k].turn.promptId != p {
      assert ends[k].turn.promptId == done[k - 1];
    }
  }

  /** A request's turn begins and ends, turns are typed under other ids, and one under its own. */
  function LongRun(r: RequestId, p: PromptId, qs: seq<PromptId>, other: string, text: string): seq<Event> {
    Beginning(r, p) + TurnsTyped(qs, other) + TurnTyped(p, text, 2 * |qs| + 1)
  }

  /**
   A run of the server, for any ids and texts, in which a request is answered
   with another turn's text: its own turn left background work, at least
   ENDED_KEPT turns were typed and stopped, never longer apart than the
   grace, and one more was typed under the id of its turn.
   */
  lemma AnotherTurnsText(r: RequestId, p: PromptId, qs: seq<PromptId>, other: string, text: string, graceMs: nat)
    requires NoDup(qs) && p !in qs && |qs| >= ENDED_KEPT && 1 < graceMs
    ensures Possible(true, None, LongRun(r, p, qs, other, text), graceMs)
    ensures AnsweredByAnother(Reach(true, None, LongRun(r, p, qs, other, text), graceMs), r, text)
  {
    hide *;
    var events := Beginning(r, p) + TurnsTyped(qs, other);
    TurnsPass(r, p, qs, other, graceMs);
    ReachTurn(events, p, text, 2 * |qs| + 1, graceMs);
    ForgottenIsAnswered(Reach(true, None, events, graceMs), r, p, qs, 2 * |qs| + 1, text, graceMs);
    LongRunIs(r, p, qs, other, text);
  }

  lemma LongRunIs(r: RequestId, p: PromptId, qs: seq<PromptId>, other: string, text: string)
    ensures LongRun(r, p, qs, other, text) ==
            Beginning(r, p) + TurnsTyped(qs, other) + TurnTyped(p, text, 2 * |qs| + 1)
  {}
}
