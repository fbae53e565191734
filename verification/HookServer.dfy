/**
 The Stop hook and the running server: over any run of the server whose log
 is well-formed, when exactly the requests the hook counts as waiting are
 those the server's ledger has bound to the turn.
 */
module HookServer {
  import opened Records
  import opened OrderedMaps
  import opened Turns
  import opened TurnHistory
  import opened WaitingRequests
  import opened Courses
  import opened HookAgreement
  import opened Channels
  import opened Agreement
  import opened AgreementRuns
  import opened Outcomes
  import Ledgers

  /** What an event tells the tracker. */
  function TellsOf(s: Server, event: Event): seq<Record> {
    var shown := Shown(s, event);
    if shown.Some? then [shown.value]
    else if event.Remove? && event.requestId in s.desk.pending.vals then [Forgotten(event.requestId)]
    else []
  }

  /** What a run tells the tracker; its log is what the hooks wrote. */
  function TraceOf(binding: bool, lastStopMs: Option<nat>, events: seq<Event>, graceMs: nat): seq<Record> {
    if events == [] then []
    else
      var before := events[..|events| - 1];
      TraceOf(binding, lastStopMs, before, graceMs)
      + TellsOf(Reach(binding, lastStopMs, before, graceMs).s, events[|events| - 1])
  }

  lemma LiveTells(w: World, event: Event, graceMs: nat)
    ensures var told := TellsOf(w.s, event);
            Live(w, event, graceMs).s.tracker == if told == [] then w.s.tracker else Apply(w.s.tracker, told[0]).state
  {
    hide Submitted, Activity, Stopped, Failed, OnCalls, EndUnanswered, Ledgers.ObserveStop;
  }

  lemma {:induction false} TraceTracks(binding: bool, lastStopMs: Option<nat>, events: seq<Event>, graceMs: nat)
    ensures Reach(binding, lastStopMs, events, graceMs).s.tracker ==
            Run(Turns.Init(binding, lastStopMs), TraceOf(binding, lastStopMs, events, graceMs)).t
  {
    if events != [] {
      var before := events[..|events| - 1];
      var w := Reach(binding, lastStopMs, before, graceMs);
      var trace := TraceOf(binding, lastStopMs, before, graceMs);
      var told := TellsOf(w.s, events[|events| - 1]);
      TraceTracks(binding, lastStopMs, before, graceMs);
      LiveTells(w, events[|events| - 1], graceMs);
      hide Live, Apply, TellsOf;
      if told == [] {
        Nothing(trace);
      } else {
        assert (trace + told)[..|trace|] == trace;
      }
    }
  }

  /** A message names no request before the server handed its id out. */
  predicate Announced(binding: bool, lastStopMs: Option<nat>, events: seq<Event>, graceMs: nat) {
    events == [] ||
    var before, event := events[..|events| - 1], events[|events| - 1];
    && Announced(binding, lastStopMs, before, graceMs)
    && (event.PromptSubmitted? && event.submit.requestId.Some? ==>
          event.submit.requestId.value in Reach(binding, lastStopMs, before, graceMs).issued)
  }

  /** No step opens a request again. */
  lemma OpensNone(w: World, event: Event, graceMs: nat, r: RequestId)
    requires Enabled(w.s, w.issued, event) && r in w.issued
    requires Live(w, event, graceMs).s.desk.IsOpen(r)
    ensures w.s.desk.IsOpen(r)
  {
    var rec := Shown(w.s, event);
    if rec.Some? {
      var s := match event
        case TurnStopped(stop, _, _, _) => Observed(w.s, Ledgers.TurnStop(stop, None))
        case TurnFailed(failure, _, _, _) => Observed(w.s, Ledgers.FailureAsStop(failure))
        case _ => w.s;
      hide Apply, OnCalls, Ledgers.ObserveStop, EndUnanswered;
      OnCallsKeepPending(s.desk, Apply(s.tracker, rec.value).calls);
      EndsAndOpensNone(Tell(s, rec.value).desk, event.view, event.nowMs, graceMs, r);
    } else if event.Tick? {
      EndsAndOpensNone(w.s.desk, event.view, event.nowMs, graceMs, r);
      hide EndUnanswered;
    }
  }

  lemma EndsAndOpensNone(k: Desk, view: Ledgers.TurnView, nowMs: nat, graceMs: nat, r: RequestId)
    requires EndUnanswered(k, view, nowMs, graceMs).IsOpen(r)
    ensures k.IsOpen(r)
  {
    hide Ledgers.UnansweredNow;
    EndEachOpensNone(k.pending, Ledgers.UnansweredNow(k.ledger, view, nowMs, graceMs, k.Open()).1);
    hide EndEach;
  }

  /** What was told of requests, against those open now and those ever handed out. */
  ghost predicate ToldOf(trace: seq<Record>, opens: set<RequestId>, issued: set<RequestId>) {
    forall rec <- trace ::
      && StaysOpen(rec, opens)
      && (rec.SubmitSeen? && rec.submit.requestId.Some? ==> rec.submit.requestId.value in issued)
      && (rec.Forgotten? ==> rec.requestId in issued)
  }

  lemma TraceMore(binding: bool, lastStopMs: Option<nat>, events: seq<Event>, graceMs: nat)
    requires events != []
    ensures var before, event := events[..|events| - 1], events[|events| - 1];
            TraceOf(binding, lastStopMs, events, graceMs) ==
            TraceOf(binding, lastStopMs, before, graceMs)
              + TellsOf(Reach(binding, lastStopMs, before, graceMs).s, event)
  {
    hide Reach, TellsOf;
  }

  lemma ToldConcat(a: seq<Record>, b: seq<Record>, opens: set<RequestId>, issued: set<RequestId>)
    requires ToldOf(a, opens, issued) && ToldOf(b, opens, issued)
    ensures ToldOf(a + b, opens, issued)
  {}

  lemma ToldStays(trace: seq<Record>, before: set<RequestId>, issued: set<RequestId>, after: set<RequestId>,
                  more: set<RequestId>)
    requires ToldOf(trace, before, issued) && issued <= more && forall r <- after :: r in issued ==> r in before
    ensures ToldOf(trace, after, more)
  {}

  lemma ToldNow(w: World, event: Event, graceMs: nat)
    requires Enabled(w.s, w.issued, event) && w.s.desk.pending.vals.Keys <= w.issued
    requires event.PromptSubmitted? && event.submit.requestId.Some? ==> event.submit.requestId.value in w.issued
    ensures ToldOf(TellsOf(w.s, event), Live(w, event, graceMs).s.desk.Open(), w.issued)
  {
    if event.PromptSubmitted? && event.submit.requestId.Some? {
      var r := event.submit.requestId.value;
      if Live(w, event, graceMs).s.desk.IsOpen(r) {
        OpensNone(w, event, graceMs, r);
      }
      hide Live;
    } else if !event.Remove? {
      hide Live;
    }
  }

  lemma {:induction false} TraceStaysOpen(binding: bool, lastStopMs: Option<nat>, events: seq<Event>, graceMs: nat)
    requires Possible(binding, lastStopMs, events, graceMs) && Announced(binding, lastStopMs, events, graceMs)
    ensures var w := Reach(binding, lastStopMs, events, graceMs);
            ToldOf(TraceOf(binding, lastStopMs, events, graceMs), w.s.desk.Open(), w.issued)
  {
    if events != [] {
      var before, event := events[..|events| - 1], events[|events| - 1];
      var w := Reach(binding, lastStopMs, before, graceMs);
      var n := Live(w, event, graceMs);
      TraceStaysOpen(binding, lastStopMs, before, graceMs);
      ReachAgrees(binding, lastStopMs, before, graceMs);
      IssuedAreKnown(w);
      ToldNow(w, event, graceMs);
      forall r <- n.s.desk.Open() | r in w.issued ensures r in w.s.desk.Open() {
        OpensNone(w, event, graceMs, r);
      }
      assert w.issued <= n.issued;
      hide Live, Enabled, TellsOf;
      TraceMore(binding, lastStopMs, events, graceMs);
      hide TraceOf, Reach, ToldOf;
      ToldStays(TraceOf(binding, lastStopMs, before, graceMs), w.s.desk.Open(), w.issued, n.s.desk.Open(), n.issued);
      ToldStays(TellsOf(w.s, event), n.s.desk.Open(), w.issued, n.s.desk.Open(), n.issued);
      ToldConcat(TraceOf(binding, lastStopMs, before, graceMs), TellsOf(w.s, event), n.s.desk.Open(), n.issued);
    }
  }

  lemma IssuedAreKnown(w: World)
    requires Agreed(w)
    ensures w.s.desk.pending.vals.Keys <= w.issued && w.s.desk.pending.vals.Keys == w.s.desk.ledger.deliveries.vals.Keys
  {}

  lemma {:induction false} FilterTwice<T>(s: seq<T>, p: T -> bool, q: T -> bool, both: T -> bool)
    requires forall x <- s :: both(x) <==> p(x) && q(x)
    ensures Filter(Filter(s, p), q) == Filter(s, both)
  {
    if s != [] {
      var init, last := s[..|s| - 1], s[|s| - 1];
      FilterTwice(init, p, q, both);
      assert both(last) <==> p(last) && q(last);
      FilterLast(Filter(init, p), last, q);
      Nothing(Filter(init, p));
      Nothing(Filter(init, both));
    }
  }

  /** A run whose log is well-formed and reports prompt ids, and that no message ran ahead of. */
  predicate WellFormed(binding: bool, lastStopMs: Option<nat>, events: seq<Event>, graceMs: nat) {
    && Possible(binding, lastStopMs, events, graceMs) && Announced(binding, lastStopMs, events, graceMs)
    && var trace := TraceOf(binding, lastStopMs, events, graceMs);
       CourseOf(binding, trace).Some? && ReportsIds(LogOf(trace))
  }

  function CourseNow(binding: bool, lastStopMs: Option<nat>, events: seq<Event>, graceMs: nat): Course
    requires WellFormed(binding, lastStopMs, events, graceMs)
  {
    CourseOf(binding, TraceOf(binding, lastStopMs, events, graceMs)).value
  }

  /** The server's file of open requests; `owning` is its list for a Stop without a prompt id. */
  function FileOf(s: Server, owning: seq<RequestId>): OpenRequests {
    OpenRequests(owning, s.desk.ledger.Open(s.desk.Open()))
  }

  /** What the hook answers at a Stop of `p`, and what the ledger has bound to the turn that `p` names. */
  ghost function Found(s: Server, log: seq<SessionEvent>, owning: seq<RequestId>, p: PromptId): Option<seq<RequestId>> {
    Waiting(Some(FileOf(s, owning)), log, Some(p))
  }

  function BoundBy(s: Server, p: PromptId): seq<RequestId> {
    Ledgers.BoundNow(s.desk.ledger, s.tracker.Resolve(p), s.desk.Open())
  }

  /** Of the file's requests, the tracker's are the ledger's. */
  lemma BoundAlike(w: World, owning: seq<RequestId>, p: PromptId)
    requires Agreed(w)
    ensures Filter(FileOf(w.s, owning).openIds, r => BoundTo(w.s.tracker, r, p)) == BoundBy(w.s, p)
  {
    var l, t, open, id := w.s.desk.ledger, w.s.tracker, w.s.desk.Open(), w.s.tracker.Resolve(p);
    var isOpen, isBound := (r: RequestId) => r in open, (r: RequestId) => BoundTo(t, r, p);
    var both := (r: RequestId) => r in l.deliveries.vals && l.deliveries.vals[r].boundTo == Some(id) && r in open;
    IssuedAreKnown(w);
    hide Agreed, Filter;
    forall r <- l.deliveries.keys ensures both(r) <==> isOpen(r) && isBound(r) {
      if r in open {
        BindingsAgree(w, r);
      }
    }
    FilterTwice(l.deliveries.keys, isOpen, isBound, both);
  }

  /** What the log and the file hold, as the theorems about the log want it. */
  lemma TraceFits(binding: bool, lastStopMs: Option<nat>, events: seq<Event>, graceMs: nat, owning: seq<RequestId>)
    requires WellFormed(binding, lastStopMs, events, graceMs)
    ensures var s := Reach(binding, lastStopMs, events, graceMs).s;
            var trace := TraceOf(binding, lastStopMs, events, graceMs);
            && s.tracker == Run(Turns.Init(binding, lastStopMs), trace).t
            && Agreed(Reach(binding, lastStopMs, events, graceMs))
            && forall rec <- trace :: StaysOpen(rec, set r <- FileOf(s, owning).openIds)
  {
    hide CourseOf, LogOf, TraceOf, Reach, Run, Possible, Announced, ReportsIds, Agreed, Filter;
    TraceTracks(binding, lastStopMs, events, graceMs);
    TraceStaysOpen(binding, lastStopMs, events, graceMs);
    ReachAgrees(binding, lastStopMs, events, graceMs);
    var s := Reach(binding, lastStopMs, events, graceMs).s;
    assert forall r <- FileOf(s, owning).openIds :: r in s.desk.Open();
  }

  /**
   For any run of the server whose log is well-formed, at a Stop under any
   id: the hook, reading the log and the server's file of open requests,
   finds exactly the open requests the ledger has bound to the turn that id
   names, in the order they were delivered, if and only if no message sets
   one of them apart.
   */
  lemma HookFindsTheBound(binding: bool, lastStopMs: Option<nat>, events: seq<Event>, graceMs: nat,
                          owning: seq<RequestId>, p: PromptId)
    requires WellFormed(binding, lastStopMs, events, graceMs)
    ensures var s := Reach(binding, lastStopMs, events, graceMs).s;
            var log, c := LogOf(TraceOf(binding, lastStopMs, events, graceMs)),
              CourseNow(binding, lastStopMs, events, graceMs);
            Found(s, log, owning, p) == Some(BoundBy(s, p)) <==>
            forall r <- FileOf(s, owning).openIds :: !SetApart(log, s.tracker, c, r, p)
  {
    hide CourseOf, LogOf, TraceOf, Reach, Run, Possible, Announced, ReportsIds, Waiting, Agreed, Filter, SetApart,
         BoundBy;
    TraceFits(binding, lastStopMs, events, graceMs, owning);
    var w := Reach(binding, lastStopMs, events, graceMs);
    HookAgrees(binding, lastStopMs, TraceOf(binding, lastStopMs, events, graceMs), FileOf(w.s, owning), p);
    BoundAlike(w, owning, p);
  }

  /**
   Under any id still retained the hook finds no other turn's request, and
   under a turn's own id all of that turn's.
   */
  lemma HookFindsItsTurns(binding: bool, lastStopMs: Option<nat>, events: seq<Event>, graceMs: nat,
                          owning: seq<RequestId>, p: PromptId)
    requires WellFormed(binding, lastStopMs, events, graceMs)
    ensures var s := Reach(binding, lastStopMs, events, graceMs).s;
            var log, c := LogOf(TraceOf(binding, lastStopMs, events, graceMs)),
              CourseNow(binding, lastStopMs, events, graceMs);
            var found := Found(s, log, owning, p);
            && found.Some?
            && (Retained(s.tracker, c, p) ==> forall r <- found.value :: r in BoundBy(s, p))
            && (p !in c.names ==> found == Some(BoundBy(s, p)))
  {
    hide CourseOf, LogOf, TraceOf, Reach, Run, Possible, Announced, ReportsIds, Agreed, Filter, SetApart, BoundBy,
         WaitsFor, Retained, BoundTo;
    TraceFits(binding, lastStopMs, events, graceMs, owning);
    var w := Reach(binding, lastStopMs, events, graceMs);
    var trace, file := TraceOf(binding, lastStopMs, events, graceMs), FileOf(w.s, owning);
    BoundAlike(w, owning, p);
    assert Found(w.s, LogOf(trace), owning, p).Some?;
    if Retained(w.s.tracker, CourseNow(binding, lastStopMs, events, graceMs), p) {
      HookNamesItsTurn(binding, lastStopMs, trace, file, p);
    }
    if p !in CourseNow(binding, lastStopMs, events, graceMs).names {
      LastIdAgrees(binding, lastStopMs, trace, file, p);
    }
  }
}
