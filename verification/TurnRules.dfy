/**
 Two of the tracker's rules over any run, whatever the order of the records'
 times: which messages may be taken together, and that no record ends a
 turn unless it is later than the turn's start.
 */
module TurnRules {
  import opened Records
  import opened OrderedMaps
  import opened Turns
  import opened TurnHistory

  // Messages taken together.

  predicate IsMessage(rec: Record) {
    rec.SubmitSeen? && rec.submit.promptId.Some? && rec.submit.requestId.Some?
  }

  /**
   What closes the open batch: a line without an id, channel submits aside, or
   typed text or a tool call of the turn.
   */
  predicate Closes(t: Tracker, rec: Record) {
    match rec
    case SubmitSeen(submit, _, _) =>
      submit.requestId.None? && (submit.promptId.None? || t.IsCurrent(t.Resolve(submit.promptId.value)))
    case ActivitySeen(activity, _) => t.binding && activity.promptId.Some?
      && t.IsCurrent(t.Resolve(activity.promptId.value))
    case StopSeen(stop, _) => t.binding && stop.promptId.None?
    case FailureSeen(failure, _) => t.binding && failure.promptId.None?
    case Forgotten(_) => false
  }

  function BatchUntil(t: Tracker): Option<nat> {
    if t.current.Some? then t.current.value.batchUntilMs else None
  }

  lemma MessageBatches(t: Tracker, rec: Record)
    requires IsMessage(rec)
    ensures var u := Apply(t, rec).state;
            BatchUntil(u).Some? ==>
              || BatchUntil(u) == Some(rec.submit.atMs + CHANNEL_BATCH_MS)
              || (BatchUntil(u) == BatchUntil(t) && t.Resolve(rec.submit.promptId.value) in t.ended.vals)
  {
    hide Realias, PutCapped;
  }

  lemma FinishedBatches(t: Tracker, id: Option<PromptId>, session: Option<string>, end: TurnEnd)
    ensures var u := Finished(t, id, session, end).state;
            BatchUntil(u).Some? ==> BatchUntil(u) == BatchUntil(t) && !(t.binding && id.None?)
  {
    hide PutCapped;
  }

  /** One record: a batch is open after it for a message it took in, or because it was, and the record closed none. */
  lemma RecordBatches(t: Tracker, rec: Record)
    requires Flat(t)
    ensures var u := Apply(t, rec).state;
            BatchUntil(u).Some? ==>
              || (IsMessage(rec) && BatchUntil(u) == Some(rec.submit.atMs + CHANNEL_BATCH_MS))
              || (BatchUntil(u) == BatchUntil(t) && !Closes(t, rec))
  {
    match rec
    case SubmitSeen(submit, isOpen, session) =>
      if IsMessage(rec) {
        MessageBatches(t, rec);
        hide Apply;
      } else {
        hide PutCapped;
      }
    case ActivitySeen(_, _) => hide PutCapped;
    case StopSeen(stop, session) =>
      FinishedBatches(t, stop.promptId, stop.sessionId.OrElse(session), StopEnd(stop));
      hide Finished;
    case FailureSeen(failure, session) =>
      FinishedBatches(t, failure.promptId, failure.sessionId.OrElse(session),
                      FailureEnd(failure.atMs, failure.error, failure.errorDetails));
      hide Finished;
    case Forgotten(_) =>
  }

  /** Message `j` keeps the batch open until `until`, and no record after it closed it. */
  ghost predicate OpenSince(t: Tracker, recs: seq<Record>, j: nat, until: nat) {
    && j < |recs| && IsMessage(recs[j]) && until == recs[j].submit.atMs + CHANNEL_BATCH_MS
    && forall k :: j < k < |recs| ==> !Closes(Run(t, recs[..k]).t, recs[k])
  }

  lemma OpenStill(t: Tracker, init: seq<Record>, rec: Record, j: nat, until: nat)
    requires OpenSince(t, init, j, until) && !Closes(Run(t, init).t, rec)
    ensures OpenSince(t, init + [rec], j, until)
  {
    var recs := init + [rec];
    hide Run, Closes;
    forall k | j < k < |recs| ensures !Closes(Run(t, recs[..k]).t, recs[k]) {
      if k < |init| {
        assert recs[..k] == init[..k] && recs[k] == init[k];
      } else {
        assert recs[..k] == init;
      }
    }
  }

  lemma OpenNow(t: Tracker, init: seq<Record>, rec: Record)
    requires IsMessage(rec)
    ensures OpenSince(t, init + [rec], |init|, rec.submit.atMs + CHANNEL_BATCH_MS)
  {
    hide Run, Closes;
  }

  /**
   Over any run: when a message under a new id would be taken with the turn
   running, that turn's batch was opened or extended by a message no longer
   ago than the bound, and nothing that closes it came since.
   */
  lemma {:induction false} TakenTogether(binding: bool, lastStopMs: Option<nat>, recs: seq<Record>)
    ensures var t := Init(binding, lastStopMs);
            BatchUntil(Run(t, recs).t).Some? ==>
              exists j: nat :: OpenSince(t, recs, j, BatchUntil(Run(t, recs).t).value)
  {
    var t := Init(binding, lastStopMs);
    if recs != [] {
      var init, rec := recs[..|recs| - 1], recs[|recs| - 1];
      assert recs == init + [rec];
      var before := Run(t, init).t;
      var until := BatchUntil(Run(t, recs).t);
      assert Run(t, recs).t == Apply(before, rec).state;
      assert Flat(before) by { RunKeeps(binding, lastStopMs, init); }
      hide Run, Apply, BatchUntil, Flat, Closes, OpenSince, Init;
      TakenTogether(binding, lastStopMs, init);
      RecordBatches(before, rec);
      if until.Some? {
        if IsMessage(rec) && until == Some(rec.submit.atMs + CHANNEL_BATCH_MS) {
          OpenNow(t, init, rec);
        } else {
          var j: nat :| OpenSince(t, init, j, until.value);
          OpenStill(t, init, rec, j, until.value);
        }
      }
    }
  }

  // Records no later than a turn's start.

  /** A served turn that its own Stop or failure ended began strictly before it. */
  predicate EndsLater(c: Call) {
    c.TurnEnded? && c.turn.kind.Served? && (c.end.StopEnd? || c.end.FailureEnd?) ==> c.turn.startedAtMs < c.end.AtMs()
  }

  lemma EndingLater(t: Tracker, end: TurnEnd)
    requires end.NextEnd? || t.current.None? || t.current.value.turn.kind.Local?
             || t.current.value.turn.startedAtMs < end.AtMs()
    ensures forall c <- End(t, end).calls :: EndsLater(c)
  {}

  lemma FinishedEndsLater(t: Tracker, id: Option<PromptId>, session: Option<string>, end: TurnEnd)
    ensures forall c <- Finished(t, id, session, end).calls :: EndsLater(c)
  {
    if t.binding && id.Some? {
      var p := t.Resolve(id.value);
      var s := Surface(t, p, end.AtMs(), session);
      EndingLater(t, NextEnd(Since(t, end.AtMs())));
      assert forall c <- s.calls :: EndsLater(c);
      if s.state.IsCurrent(p) && (Surfaces(t, p) || s.state.current.value.turn.startedAtMs < end.AtMs()) {
        EndingLater(s.state.(lastEndMs := Some(end.AtMs())), end);
      }
      hide Turns.End, Since;
    }
  }

  lemma MessageEndsLater(t: Tracker, r: RequestId, id: PromptId, at: nat, session: Option<string>, isOpen: bool)
    ensures forall c <- TakeChannel(t, r, id, at, session, isOpen).calls :: EndsLater(c)
  {
    EndingLater(t, NextEnd(at));
    assert forall c <- Enter(t, id, at, session).calls :: EndsLater(c) by {
      hide Turns.End, Realias;
    }
    hide Enter;
  }

  lemma TypedEndsLater(t: Tracker, id: PromptId, at: nat, session: Option<string>)
    ensures forall c <- TakeTyped(t, id, at, session).calls :: EndsLater(c)
  {
    EndingLater(t, NextEnd(at));
    hide Turns.End;
  }

  lemma SubmittedEndsLater(t: Tracker, submit: SubmitRecord, isOpen: bool, session: Option<string>)
    ensures forall c <- Submitted(t, submit, isOpen, session).calls :: EndsLater(c)
  {
    if submit.promptId.Some? {
      var b, id := t.(binding := true), t.Resolve(submit.promptId.value);
      var sessionId := submit.sessionId.OrElse(session);
      if submit.requestId.Some? {
        MessageEndsLater(b, submit.requestId.value, id, submit.atMs, sessionId, isOpen);
      } else {
        TypedEndsLater(b, id, submit.atMs, sessionId);
      }
    }
    hide TakeChannel, TakeTyped;
  }

  lemma ActivityEndsLater(t: Tracker, activity: TurnActivity, session: Option<string>)
    ensures forall c <- Activity(t, activity, session).calls :: EndsLater(c)
  {
    EndingLater(t, NextEnd(Since(t, activity.atMs)));
    hide Turns.End, Since;
  }

  lemma RecordEndsLater(t: Tracker, rec: Record)
    ensures forall c <- Apply(t, rec).calls :: EndsLater(c)
  {
    hide Submitted, Activity, Finished, EndsLater;
    match rec
    case SubmitSeen(submit, isOpen, session) => SubmittedEndsLater(t, submit, isOpen, session);
    case ActivitySeen(activity, session) => ActivityEndsLater(t, activity, session);
    case StopSeen(stop, session) =>
      FinishedEndsLater(t, stop.promptId, stop.sessionId.OrElse(session), StopEnd(stop));
    case FailureSeen(failure, session) =>
      FinishedEndsLater(t, failure.promptId, failure.sessionId.OrElse(session),
                        FailureEnd(failure.atMs, failure.error, failure.errorDetails));
    case Forgotten(_) =>
  }

  lemma {:induction false} EndsAreCalls(h: History, calls: seq<Call>)
    ensures forall e <- Noted(h, calls).ends :: e in h.ends || TurnEnded(e.turn, e.end) in calls
    decreases calls
  {
    if calls != [] {
      EndsAreCalls(Note(h, calls[0]), calls[1..]);
    }
  }

  /**
   Over any run, in whatever order records come: a served turn that a Stop or
   failure ended began strictly before it.
   */
  lemma {:induction false} StoppedAfterItsStart(t: Tracker, recs: seq<Record>)
    ensures forall e <- Run(t, recs).h.ends :: EndsLater(TurnEnded(e.turn, e.end))
  {
    if recs != [] {
      var before := Run(t, recs[..|recs| - 1]);
      StoppedAfterItsStart(t, recs[..|recs| - 1]);
      RecordEndsLater(before.t, recs[|recs| - 1]);
      EndsAreCalls(before.h, Apply(before.t, recs[|recs| - 1]).calls);
      hide Apply, EndsLater;
    }
  }
}
