/**
 The server: how the tracker's hook calls drive the ledger, the life of a
 pending request, and how requests a turn left unanswered are ended.
 */
module Channels {
  import opened Records
  import opened OrderedMaps
  import opened Turns
  import opened TurnHistory
  import Ledgers

  type Ledger = Ledgers.Ledger
  type TurnView = Ledgers.TurnView

  /** A request handed over: settled or not, and the final text being sent as its reply, if one is. */
  datatype Pending = Pending(settled: bool, answering: Option<string>)

  /** The part of the server the tracker's hooks work on. */
  datatype Desk = Desk(ledger: Ledger, pending: OMap<RequestId, Pending>) {
    predicate IsOpen(requestId: RequestId) {
      requestId in pending.vals && !pending.vals[requestId].settled
    }

    /** The requests delivered and not ended: what `finished` denies and `isOpen` tells. */
    function Open(): set<RequestId> {
      set r <- pending.vals | !pending.vals[r].settled
    }
  }

  function BoundEnd(end: TurnEnd): Ledgers.BoundTurnEnd {
    match end
    case StopEnd(stop) => Ledgers.BoundStop(stop)
    case FailureEnd(_, error, details) => Ledgers.BoundFailure(Ledgers.TurnFailure(error, details))
    case NextEnd(_) => Ledgers.BoundNext
    case ShutdownEnd(_) => Ledgers.BoundShutdown
  }

  /** One hook call, as the server answers it. */
  function OnCall(k: Desk, c: Call): Desk {
    match c
    case BindingStarted => k.(ledger := Ledgers.StartBinding(k.ledger))
    case PromptStarted(r, turn, _, _) =>
      if r in k.pending.vals then k.(ledger := Ledgers.Bind(k.ledger, r, turn.promptId)) else k
    case PromptRebound(r, promptId) => k.(ledger := Ledgers.Bind(k.ledger, r, promptId))
    case TurnEnded(turn, end) =>
      k.(ledger := Ledgers.TurnEnded(k.ledger, turn.promptId, BoundEnd(end), k.Open()))
    case _ => k
  }

  function OnCalls(k: Desk, calls: seq<Call>): Desk {
    if calls == [] then k else OnCall(OnCalls(k, calls[..|calls| - 1]), calls[|calls| - 1])
  }

  /** An unanswered request ends with an error, or, with a final text, is answered with it. */
  function EndPending(p: Pending, ending: Ledgers.Ending): Pending {
    if p.settled || p.answering.Some? then p
    else if ending.failure.Some? then p.(settled := true)
    else if ending.finalText.Some? then p.(answering := ending.finalText)
    else p.(settled := true)
  }

  function EndEach(pending: OMap<RequestId, Pending>, us: seq<Ledgers.Unanswered>): (r: OMap<RequestId, Pending>)
    ensures r.keys == pending.keys
  {
    if us == [] then pending
    else
      var before := EndEach(pending, us[..|us| - 1]);
      var u := us[|us| - 1];
      if u.requestId in before.vals
      then Put(before, u.requestId, EndPending(before.vals[u.requestId], u.ending)) else before
  }

  /** `endUnanswered`. */
  function EndUnanswered(k: Desk, view: TurnView, nowMs: nat, graceMs: nat): Desk {
    if k.pending.keys == [] then k
    else
      var (ledger, us) := Ledgers.UnansweredNow(k.ledger, view, nowMs, graceMs, k.Open());
      Desk(ledger, EndEach(k.pending, us))
  }

  datatype Server = Server(tracker: Tracker, desk: Desk)

  function Init(binding: bool, lastStopMs: Option<nat>): Server {
    Server(Turns.Init(binding, lastStopMs), Desk(Ledgers.Init(binding), Empty()))
  }

  /** The tracker hears of a record, and the server of what it makes of it. */
  function Tell(s: Server, rec: Record): Server {
    var e := Apply(s.tracker, rec);
    Server(e.state, OnCalls(s.desk, e.calls))
  }

  /** What happens to the server. */
  datatype Event =
    | Accept(requestId: RequestId, view: TurnView, nowMs: nat)
    | Settle(requestId: RequestId)
    | Remove(requestId: RequestId)
    | PromptSubmitted(submit: SubmitRecord, session: Option<string>, view: TurnView, nowMs: nat)
    | ToolCalled(activity: TurnActivity, session: Option<string>, view: TurnView, nowMs: nat)
    | TurnStopped(stop: StopRecord, session: Option<string>, view: TurnView, nowMs: nat)
    | TurnFailed(failure: FailureRecord, session: Option<string>, view: TurnView, nowMs: nat)
    | Tick(view: TurnView, nowMs: nat)
    | Question(view: TurnView)

  /** A request is accepted under an id never handed out before, and leaves once it is settled. */
  predicate Enabled(s: Server, issued: set<RequestId>, event: Event) {
    match event
    case Accept(r, _, _) => r !in issued
    case Remove(r) => r in s.desk.pending.vals && s.desk.pending.vals[r].settled
    case _ => true
  }

  function Accepted(s: Server, r: RequestId, view: TurnView, nowMs: nat): Server {
    var k := s.desk.(pending := Put(s.desk.pending, r, Pending(false, None)));
    s.(desk := k.(ledger := Ledgers.Delivered(k.ledger, r, view, nowMs, k.Open()).0))
  }

  function Settled(s: Server, r: RequestId): Server {
    if r in s.desk.pending.vals
    then s.(desk := s.desk.(pending := Put(s.desk.pending, r, s.desk.pending.vals[r].(settled := true)))) else s
  }

  /** `removePending`. */
  function Removed(s: Server, r: RequestId): Server {
    if r !in s.desk.pending.vals then s
    else Server(Turns.Forget(s.tracker, r), Desk(Ledgers.Forget(s.desk.ledger, r), Delete(s.desk.pending, r)))
  }

  function Observed(s: Server, stop: Ledgers.TurnStop): Server {
    s.(desk := s.desk.(ledger := Ledgers.ObserveStop(s.desk.ledger, Some(stop))))
  }

  function Heard(s: Server, rec: Record, view: TurnView, nowMs: nat, graceMs: nat): Server {
    var t := Tell(s, rec);
    t.(desk := EndUnanswered(t.desk, view, nowMs, graceMs))
  }

  function SubmitHeard(s: Server, submit: SubmitRecord, session: Option<string>): Record {
    SubmitSeen(submit, submit.requestId.Some? && s.desk.IsOpen(submit.requestId.value), session)
  }

  function Next(s: Server, event: Event, graceMs: nat): Server {
    match event
    case Accept(r, view, nowMs) => Accepted(s, r, view, nowMs)
    case Settle(r) => Settled(s, r)
    case Remove(r) => Removed(s, r)
    case PromptSubmitted(submit, session, view, nowMs) =>
      Heard(s, SubmitHeard(s, submit, session), view, nowMs, graceMs)
    case ToolCalled(activity, session, view, nowMs) => Heard(s, ActivitySeen(activity, session), view, nowMs, graceMs)
    case TurnStopped(stop, session, view, nowMs) =>
      Heard(Observed(s, Ledgers.TurnStop(stop, None)), StopSeen(stop, session), view, nowMs, graceMs)
    case TurnFailed(failure, session, view, nowMs) =>
      Heard(Observed(s, Ledgers.FailureAsStop(failure)), FailureSeen(failure, session), view, nowMs, graceMs)
    case Tick(view, nowMs) => s.(desk := EndUnanswered(s.desk, view, nowMs, graceMs))
    case Question(view) => s.(desk := s.desk.(ledger := Ledgers.OwnerOf(s.desk.ledger, view, s.desk.Open()).0))
  }
}

/** The server as it runs: a tracker and a ledger of its own, and the pending requests. */
module ChannelServing {
  import opened Records
  import opened OrderedMaps
  import opened Turns
  import opened TurnHistory
  import opened TurnTracking
  import opened LedgerKeeping
  import opened Channels
  import Ledgers

  class Channel {
    const graceMs: nat
    const tracker: TurnTracker
    const ledger: TurnLedger
    var pending: OMap<RequestId, Pending>

    ghost function DeskNow(): Desk
      reads this, ledger
    {
      Desk(ledger.State(), pending)
    }

    ghost function State(): Server
      reads this, tracker, ledger
    {
      Server(tracker.State(), DeskNow())
    }

    constructor (binding: bool, lastStopMs: Option<nat>, graceMs: nat)
      ensures State() == Channels.Init(binding, lastStopMs) && this.graceMs == graceMs
      ensures fresh(tracker) && fresh(ledger)
    {
      this.graceMs := graceMs;
      var kept := new TurnLedger();
      if binding {
        kept.StartBinding();
      }
      ledger := kept;
      tracker := new TurnTracker(binding, lastStopMs);
      pending := Empty();
    }

    /** `finished`, denied: the requests delivered and not ended. */
    method Open() returns (open: set<RequestId>)
      ensures open == DeskNow().Open()
    {
      open := set r <- pending.vals | !pending.vals[r].settled;
    }

    /** The tracker's hooks, called one after another. */
    method Answer(calls: seq<Call>)
      modifies ledger
      ensures DeskNow() == OnCalls(old(DeskNow()), calls)
    {
      for i := 0 to |calls|
        invariant DeskNow() == OnCalls(old(DeskNow()), calls[..i])
      {
        assert calls[..i + 1][..i] == calls[..i];
        match calls[i] {
          case BindingStarted => ledger.StartBinding();
          case PromptStarted(r, turn, _, _) =>
            if r in pending.vals {
              ledger.Bind(r, turn.promptId);
            }
          case PromptRebound(r, promptId) => ledger.Bind(r, promptId);
          case TurnEnded(turn, end) =>
            var open := Open();
            ledger.TurnEnded(turn.promptId, BoundEnd(end), open);
          case _ =>
        }
      }
      assert calls[..|calls|] == calls;
    }

    /** The body of `endUnanswered`'s loop. */
    method EndOne(r: RequestId, ending: Ledgers.Ending)
      modifies this`pending
      ensures pending == if r in old(pending).vals
                         then Put(old(pending), r, EndPending(old(pending).vals[r], ending)) else old(pending)
    {
      if r !in pending.vals || pending.vals[r].settled || pending.vals[r].answering.Some? {
        assert r in pending.vals ==> Put(pending, r, pending.vals[r]) == pending;
        return;
      }
      var p := pending.vals[r];
      if ending.failure.Some? {
        p := p.(settled := true);
      } else if ending.finalText.Some? {
        p := p.(answering := ending.finalText);
      } else {
        p := p.(settled := true);
      }
      pending := Put(pending, r, p);
    }

    method EndUnanswered(view: TurnView, nowMs: nat)
      modifies this, ledger
      ensures DeskNow() == Channels.EndUnanswered(old(DeskNow()), view, nowMs, graceMs)
    {
      if pending.keys == [] {
        return;
      }
      var open := Open();
      var us := ledger.UnansweredNow(view, nowMs, graceMs, open);
      hide Ledgers.UnansweredNow;
      ghost var kept := ledger.State();
      for i := 0 to |us|
        invariant ledger.State() == kept
        invariant pending == EndEach(old(pending), us[..i])
      {
        assert us[..i + 1][..i] == us[..i];
        EndOne(us[i].requestId, us[i].ending);
      }
      assert us[..|us|] == us;
    }

    method Accept(r: RequestId, view: TurnView, nowMs: nat)
      modifies this, ledger
      ensures State() == Accepted(old(State()), r, view, nowMs)
    {
      pending := Put(pending, r, Pending(false, None));
      var open := Open();
      var _ := ledger.Delivered(r, view, nowMs, open);
    }

    /** A `done` reply, an expiry, or the final text sent: the request's completion settles. */
    method Settle(r: RequestId)
      modifies this
      ensures State() == Settled(old(State()), r)
    {
      if r in pending.vals {
        pending := Put(pending, r, pending.vals[r].(settled := true));
      }
    }

    method RemovePending(r: RequestId)
      modifies this, ledger, tracker
      ensures State() == Removed(old(State()), r)
    {
      if r in pending.vals {
        pending := Delete(pending, r);
        ledger.Forget(r);
        tracker.Forget(r);
      }
    }

    /** The start of `decidePermission`: whom a question asked now goes to. */
    method Question(view: TurnView) returns (owner: Ledgers.QuestionOwner)
      modifies ledger
      ensures (DeskNow().ledger, owner) == Ledgers.OwnerOf(old(DeskNow()).ledger, view, old(DeskNow()).Open())
      ensures State() == old(State()).(desk := DeskNow())
    {
      var open := Open();
      owner := ledger.OwnerOf(view, open);
    }

    method PromptSubmitted(submit: SubmitRecord, session: Option<string>, view: TurnView, nowMs: nat)
      modifies this, ledger, tracker
      ensures State() == Heard(old(State()), SubmitHeard(old(State()), submit, session), view, nowMs, graceMs)
    {
      var isOpen := submit.requestId.Some? && submit.requestId.value in pending.vals
                    && !pending.vals[submit.requestId.value].settled;
      hide Turns.Submitted, OnCalls, Channels.EndUnanswered, Ledgers.ObserveStop;
      var calls := tracker.Submitted(submit, isOpen, session);
      Answer(calls);
      EndUnanswered(view, nowMs);
    }

    method ToolCalled(activity: TurnActivity, session: Option<string>, view: TurnView, nowMs: nat)
      modifies this, ledger, tracker
      ensures State() == Heard(old(State()), ActivitySeen(activity, session), view, nowMs, graceMs)
    {
      hide Turns.Activity, OnCalls, Channels.EndUnanswered, Ledgers.ObserveStop;
      var calls := tracker.Activity(activity, session);
      Answer(calls);
      EndUnanswered(view, nowMs);
    }

    method TurnStopped(stop: StopRecord, session: Option<string>, view: TurnView, nowMs: nat)
      modifies this, ledger, tracker
      ensures State() == Heard(Observed(old(State()), Ledgers.TurnStop(stop, None)), StopSeen(stop, session), view,
                               nowMs, graceMs)
    {
      hide Turns.Stopped, OnCalls, Channels.EndUnanswered, Ledgers.ObserveStop;
      ledger.ObserveStop(Some(Ledgers.TurnStop(stop, None)));
      var calls := tracker.Stopped(stop, session);
      Answer(calls);
      EndUnanswered(view, nowMs);
    }

    method TurnFailed(failure: FailureRecord, session: Option<string>, view: TurnView, nowMs: nat)
      modifies this, ledger, tracker
      ensures State() == Heard(Observed(old(State()), Ledgers.FailureAsStop(failure)), FailureSeen(failure, session),
                               view, nowMs, graceMs)
    {
      hide Turns.Failed, OnCalls, Channels.EndUnanswered, Ledgers.ObserveStop;
      ledger.ObserveFailure(failure);
      var calls := tracker.Failed(failure, session);
      Answer(calls);
      EndUnanswered(view, nowMs);
    }
  }
}
