/**
 The server's ledger as a run of ledger operations: what runs of the ledger
 keep holds in the server.
 */
module ServerLedger {
  import opened Records
  import opened OrderedMaps
  import opened Turns
  import opened TurnHistory
  import opened Channels
  import opened Agreement
  import opened AgreementRuns
  import opened Outcomes
  import Ledgers
  import LedgerHistory

  type Op = LedgerHistory.Op

  function StepAll(l: Ledger, ops: seq<Op>): Ledger {
    if ops == [] then l else LedgerHistory.Step(StepAll(l, ops[..|ops| - 1]), ops[|ops| - 1])
  }

  function OpsOfCall(k: Desk, c: Call): seq<Op> {
    match c
    case BindingStarted => [LedgerHistory.BeginBinding]
    case PromptStarted(r, turn, _, _) => if r in k.pending.vals then [LedgerHistory.BindTo(r, turn.promptId)] else []
    case PromptRebound(r, promptId) => [LedgerHistory.BindTo(r, promptId)]
    case TurnEnded(turn, end) => [LedgerHistory.EndTurn(turn.promptId, BoundEnd(end), k.Open())]
    case _ => []
  }

  /** The hook calls never change the pending requests. */
  function OpsOfCalls(k: Desk, calls: seq<Call>): seq<Op> {
    if calls == [] then []
    else OpsOfCalls(k, calls[..|calls| - 1]) + OpsOfCall(k, calls[|calls| - 1])
  }

  function OpsOfEnding(k: Desk, view: Ledgers.TurnView, nowMs: nat, graceMs: nat): seq<Op> {
    if k.pending.keys == [] then [] else [LedgerHistory.AskUnanswered(view, nowMs, graceMs, k.Open())]
  }

  function OpsOfRecord(s: Server, rec: Record, view: Ledgers.TurnView, nowMs: nat, graceMs: nat): seq<Op> {
    OpsOfCalls(s.desk, Apply(s.tracker, rec).calls) + OpsOfEnding(s.desk, view, nowMs, graceMs)
  }

  /** The ledger operations an event of the server's comes to. */
  function OpsOf(s: Server, event: Event, graceMs: nat): seq<Op> {
    match event
    case Accept(r, view, nowMs) =>
      [LedgerHistory.Deliver(r, view, nowMs, s.desk.(pending := Put(s.desk.pending, r, Pending(false, None))).Open())]
    case Settle(_) => []
    case Remove(r) => if r in s.desk.pending.vals then [LedgerHistory.Drop(r)] else []
    case PromptSubmitted(submit, session, view, nowMs) =>
      OpsOfRecord(s, SubmitHeard(s, submit, session), view, nowMs, graceMs)
    case ToolCalled(activity, session, view, nowMs) =>
      OpsOfRecord(s, ActivitySeen(activity, session), view, nowMs, graceMs)
    case TurnStopped(stop, session, view, nowMs) =>
      [LedgerHistory.CountStop(Ledgers.TurnStop(stop, None))]
        + OpsOfRecord(s, StopSeen(stop, session), view, nowMs, graceMs)
    case TurnFailed(failure, session, view, nowMs) =>
      [LedgerHistory.CountStop(Ledgers.FailureAsStop(failure))]
      + OpsOfRecord(s, FailureSeen(failure, session), view, nowMs, graceMs)
    case Tick(view, nowMs) => OpsOfEnding(s.desk, view, nowMs, graceMs)
    case Question(view) => [LedgerHistory.AskOwner(view, s.desk.Open())]
  }

  lemma {:induction false} StepAllConcat(l: Ledger, a: seq<Op>, b: seq<Op>)
    ensures StepAll(l, a + b) == StepAll(StepAll(l, a), b)
  {
    if b == [] {
      Nothing(a);
    } else {
      StepAllConcat(l, a, b[..|b| - 1]);
      assert (a + b)[..|a + b| - 1] == a + b[..|b| - 1];
      hide LedgerHistory.Step;
    }
  }

  lemma StepOne(l: Ledger, op: Op)
    ensures StepAll(l, [op]) == LedgerHistory.Step(l, op)
  {
    assert [op][..0] == [];
  }

  lemma CallSteps(k: Desk, n: Desk, c: Call)
    requires n.pending == k.pending
    ensures OnCall(n, c).ledger == StepAll(n.ledger, OpsOfCall(k, c)) && OnCall(n, c).pending == k.pending
  {
    if OpsOfCall(k, c) != [] {
      StepOne(n.ledger, OpsOfCall(k, c)[0]);
      assert OpsOfCall(k, c) == [OpsOfCall(k, c)[0]];
      hide StepAll;
    }
  }

  lemma {:induction false} CallsStep(k: Desk, n: Desk, calls: seq<Call>)
    requires n.pending == k.pending
    ensures OnCalls(n, calls).ledger == StepAll(n.ledger, OpsOfCalls(k, calls))
            && OnCalls(n, calls).pending == k.pending
  {
    if calls != [] {
      var init, c := calls[..|calls| - 1], calls[|calls| - 1];
      CallsStep(k, n, init);
      CallSteps(k, OnCalls(n, init), c);
      StepAllConcat(n.ledger, OpsOfCalls(k, init), OpsOfCall(k, c));
      hide OnCall, OpsOfCall, StepAll;
    }
  }

  lemma EndingSteps(k: Desk, n: Desk, view: Ledgers.TurnView, nowMs: nat, graceMs: nat)
    requires n.pending == k.pending
    ensures EndUnanswered(n, view, nowMs, graceMs).ledger == StepAll(n.ledger, OpsOfEnding(k, view, nowMs, graceMs))
  {
    if k.pending.keys != [] {
      StepOne(n.ledger, OpsOfEnding(k, view, nowMs, graceMs)[0]);
      hide StepAll, Ledgers.UnansweredNow;
    }
  }

  lemma RecordSteps(s: Server, n: Server, rec: Record, view: Ledgers.TurnView, nowMs: nat, graceMs: nat)
    requires n.tracker == s.tracker && n.desk.pending == s.desk.pending
    ensures Heard(n, rec, view, nowMs, graceMs).desk.ledger ==
            StepAll(n.desk.ledger, OpsOfRecord(s, rec, view, nowMs, graceMs))
  {
    hide Apply, OnCalls, EndUnanswered, StepAll, OpsOfCalls, OpsOfEnding;
    var calls := Apply(s.tracker, rec).calls;
    CallsStep(s.desk, n.desk, calls);
    EndingSteps(s.desk, OnCalls(n.desk, calls), view, nowMs, graceMs);
    StepAllConcat(n.desk.ledger, OpsOfCalls(s.desk, calls), OpsOfEnding(s.desk, view, nowMs, graceMs));
  }

  lemma CountedThenRecord(s: Server, stop: Ledgers.TurnStop, rec: Record, view: Ledgers.TurnView, nowMs: nat,
                          graceMs: nat)
    ensures Heard(Observed(s, stop), rec, view, nowMs, graceMs).desk.ledger ==
            StepAll(s.desk.ledger, [LedgerHistory.CountStop(stop)] + OpsOfRecord(s, rec, view, nowMs, graceMs))
  {
    var op := LedgerHistory.CountStop(stop);
    assert Observed(s, stop).desk.ledger == LedgerHistory.Step(s.desk.ledger, op);
    hide Heard, OpsOfRecord, StepAll, LedgerHistory.Step, Ledgers.ObserveStop;
    RecordSteps(s, Observed(s, stop), rec, view, nowMs, graceMs);
    StepOne(s.desk.ledger, op);
    StepAllConcat(s.desk.ledger, [op], OpsOfRecord(s, rec, view, nowMs, graceMs));
  }

  lemma StepNone(l: Ledger)
    ensures StepAll(l, []) == l
  {}

  /** The events that show no record. */
  lemma OwnEventSteps(s: Server, event: Event, graceMs: nat)
    requires event.Settle? || event.Accept? || event.Question? || event.Remove?
    ensures Next(s, event, graceMs).desk.ledger == StepAll(s.desk.ledger, OpsOf(s, event, graceMs))
  {
    hide StepAll, Ledgers.Delivered, Ledgers.OwnerOf;
    StepNone(s.desk.ledger);
    if OpsOf(s, event, graceMs) != [] {
      StepOne(s.desk.ledger, OpsOf(s, event, graceMs)[0]);
    }
  }

  /** Every event of the server's does to the ledger what its operations do. */
  lemma EventSteps(s: Server, event: Event, graceMs: nat)
    ensures Next(s, event, graceMs).desk.ledger == StepAll(s.desk.ledger, OpsOf(s, event, graceMs))
  {
    hide Heard, OpsOfRecord, EndUnanswered, OpsOfEnding, StepAll, Observed, LedgerHistory.Step;
    hide Accepted, Settled, Removed, Ledgers.OwnerOf;
    match event
    case PromptSubmitted(submit, session, view, nowMs) =>
      RecordSteps(s, s, SubmitHeard(s, submit, session), view, nowMs, graceMs);
    case ToolCalled(activity, session, view, nowMs) =>
      RecordSteps(s, s, ActivitySeen(activity, session), view, nowMs, graceMs);
    case TurnStopped(stop, session, view, nowMs) =>
      CountedThenRecord(s, Ledgers.TurnStop(stop, None), StopSeen(stop, session), view, nowMs, graceMs);
    case TurnFailed(failure, session, view, nowMs) =>
      CountedThenRecord(s, Ledgers.FailureAsStop(failure), FailureSeen(failure, session), view, nowMs, graceMs);
    case Tick(view, nowMs) => EndingSteps(s.desk, s.desk, view, nowMs, graceMs);
    case Settle(_) => OwnEventSteps(s, event, graceMs);
    case Accept(_, _, _) => OwnEventSteps(s, event, graceMs);
    case Question(_) => OwnEventSteps(s, event, graceMs);
    case Remove(_) => OwnEventSteps(s, event, graceMs);
  }

  /** The ledger operations of a whole run of the server's. */
  function OpsOfRun(binding: bool, lastStopMs: Option<nat>, events: seq<Event>, graceMs: nat): seq<Op> {
    if events == [] then []
    else
      var before := events[..|events| - 1];
      OpsOfRun(binding, lastStopMs, before, graceMs)
      + OpsOf(Reach(binding, lastStopMs, before, graceMs).s, events[|events| - 1], graceMs)
  }

  lemma {:induction false} RunIsSteps(byPromptId: bool, ops: seq<Op>)
    ensures LedgerHistory.Run(byPromptId, ops).l == StepAll(Ledgers.Init(byPromptId), ops)
  {
    if ops != [] {
      RunIsSteps(byPromptId, ops[..|ops| - 1]);
      hide LedgerHistory.Step, LedgerHistory.Recorded;
    }
  }

  /** The server's ledger is a run of the ledger's operations, so what every such run keeps holds in the server. */
  lemma {:induction false} ServerRunsLedger(binding: bool, lastStopMs: Option<nat>, events: seq<Event>, graceMs: nat)
    ensures Reach(binding, lastStopMs, events, graceMs).s.desk.ledger ==
            LedgerHistory.Run(binding, OpsOfRun(binding, lastStopMs, events, graceMs)).l
  {
    RunIsSteps(binding, OpsOfRun(binding, lastStopMs, events, graceMs));
    if events != [] {
      var before, event := events[..|events| - 1], events[|events| - 1];
      var w := Reach(binding, lastStopMs, before, graceMs);
      var ops := OpsOfRun(binding, lastStopMs, before, graceMs);
      ServerRunsLedger(binding, lastStopMs, before, graceMs);
      RunIsSteps(binding, ops);
      EventSteps(w.s, event, graceMs);
      StepAllConcat(Ledgers.Init(binding), ops, OpsOf(w.s, event, graceMs));
      hide Next, OpsOf, StepAll, LedgerHistory.Run;
    }
  }

  /** In every reachable state a delivery has seen a Stop exactly when one was counted since it. */
  lemma SeesTheFirstStop(binding: bool, lastStopMs: Option<nat>, events: seq<Event>, graceMs: nat,
                         stop: Option<Ledgers.TurnStop>)
    ensures var l := Ledgers.ObserveStop(Reach(binding, lastStopMs, events, graceMs).s.desk.ledger, stop);
            forall r <- l.deliveries.vals ::
              l.deliveries.vals[r].firstStop.Some? <==> l.deliveries.vals[r].stopsBefore < l.stops
  {
    ServerRunsLedger(binding, lastStopMs, events, graceMs);
    var ops := OpsOfRun(binding, lastStopMs, events, graceMs);
    LedgerHistory.RunCounts(binding, ops);
    var k := LedgerHistory.Run(binding, ops);
    LedgerHistory.ObservedCounts(k.l, k.p.counted, stop);
    hide Reach, OpsOfRun, LedgerHistory.Run, Ledgers.ObserveStop;
  }
}
