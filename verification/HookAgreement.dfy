/**
 Two readings of one log, the Stop hook's join and the tracker's bindings:
 where turns keep to themselves, when exactly they name the same requests.
 Each part of that hypothesis is needed, as the logs at the end show.
 */
module HookAgreement {
  import opened Records
  import opened OrderedMaps
  import opened Turns
  import opened TurnHistory
  import opened WaitingRequests
  import opened Courses

  /** The prompt id a channel submit came under. */
  function IdAt(log: seq<SessionEvent>, i: int): PromptId {
    if 0 <= i < |log| && IsChannel(log[i]) then log[i].submit.promptId.GetOr(PromptId("")) else PromptId("")
  }

  predicate ChannelAt(log: seq<SessionEvent>, i: int) {
    0 <= i < |log| && IsChannel(log[i])
  }

  /** The turn of the submit at line `i` goes by another id by now. */
  predicate Replaced(log: seq<SessionEvent>, c: Course, i: int) {
    ChannelAt(log, i) && IdAt(log, i) in c.names
  }

  /** The run of line `i` holds a submit under `id`. */
  ghost predicate RunHolds(log: seq<SessionEvent>, i: int, id: PromptId) {
    exists j :: Together(log, i, j) && log[j].submit.promptId == Some(id)
  }

  /** Each channel submit has an id, and each request taken has one line, under the id it was taken under. */
  ghost predicate Listed(log: seq<SessionEvent>, c: Course) {
    && (forall i :: ChannelAt(log, i) ==> log[i].submit.promptId.Some?)
    && (forall i, r :: Takes(log, i, r) ==> r in c.taken && c.taken[r] == IdAt(log, i))
    && (forall i, j, r :: Takes(log, i, r) && Takes(log, j, r) ==> i == j)
    && (forall r <- c.taken :: exists i :: Takes(log, i, r))
  }

  /** The lines of one run are of one turn. */
  ghost predicate OneTurn(log: seq<SessionEvent>, c: Course) {
    forall i, j :: Together(log, i, j) ==> c.Final(IdAt(log, i)) == c.Final(IdAt(log, j))
  }

  /** Every name has its line, and its run holds the id that took its place. */
  ghost predicate NamesHeld(log: seq<SessionEvent>, c: Course) {
    && (forall id <- c.names :: exists i :: ChannelAt(log, i) && IdAt(log, i) == id)
    && (forall i :: Replaced(log, c, i) ==> RunHolds(log, i, c.Final(IdAt(log, i))))
  }

  /** The ids a turn no longer goes by are all in one run. */
  ghost predicate OneBatch(log: seq<SessionEvent>, c: Course) {
    forall i, j :: Replaced(log, c, i) && Replaced(log, c, j) && c.Final(IdAt(log, i)) == c.Final(IdAt(log, j)) ==>
      Together(log, i, j)
  }

  /** The run the log ends with, if it ends with a channel submit, is the running turn's, and, in a batch, all of it. */
  ghost predicate LastRun(log: seq<SessionEvent>, c: Course) {
    var last := |log| - 1;
    if !ChannelAt(log, last) then !c.phase.Batch?
    else
      && !c.phase.Idle? && c.Final(IdAt(log, last)) == c.phase.id
      && (c.phase.Batch? ==>
            && log[last].submit.atMs == c.phase.lastAtMs && IdAt(log, last) == c.phase.id
            && forall i :: ChannelAt(log, i) && c.Final(IdAt(log, i)) == c.phase.id ==> Together(log, i, last))
  }

  ghost predicate OnLog(log: seq<SessionEvent>, c: Course) {
    Listed(log, c) && OneTurn(log, c) && NamesHeld(log, c) && OneBatch(log, c) && LastRun(log, c)
  }

  /** A line more leaves the runs of the lines before it, which it may only lengthen. */
  lemma LineAdded(log: seq<SessionEvent>, more: seq<SessionEvent>)
    requires |more| == |log| + 1 && more[..|log|] == log
    ensures forall i, r :: i < |log| ==> (Takes(more, i, r) <==> Takes(log, i, r))
    ensures forall i, j :: i < |log| && j < |log| ==> (Together(more, i, j) <==> Together(log, i, j))
    ensures forall i :: 0 <= i < |log| ==>
            (Together(more, i, |log|) <==> Linked(more, |log|) && Together(log, i, |log| - 1))
    ensures forall i :: 0 <= i < |log| ==>
            (Together(more, |log|, i) <==> Linked(more, |log|) && Together(log, |log| - 1, i))
  {
    assert forall k :: 0 <= k < |log| ==> more[k] == log[k];
    assert forall k :: k < |log| ==> Linked(more, k) == Linked(log, k);
    forall i | 0 <= i < |log|
      ensures Together(more, i, |log|) <==> Linked(more, |log|) && Together(log, i, |log| - 1)
      ensures Together(more, |log|, i) <==> Linked(more, |log|) && Together(log, |log| - 1, i) {
      RunGrows(more, |log|, i);
      if |log| > 1 && i < |log| - 1 {
        RunGrows(more, |log| - 1, i);
      }
    }
  }

  lemma SameLines(log: seq<SessionEvent>, more: seq<SessionEvent>)
    requires |more| == |log| + 1 && more[..|log|] == log
    ensures forall i :: i < |log| ==> IdAt(more, i) == IdAt(log, i) && (ChannelAt(more, i) <==> ChannelAt(log, i))
  {
    assert forall k :: 0 <= k < |log| ==> more[k] == log[k];
  }

  lemma RunHoldsOn(log: seq<SessionEvent>, more: seq<SessionEvent>, i: int, id: PromptId)
    requires |more| == |log| + 1 && more[..|log|] == log && i < |log|
    requires forall j :: j < |log| ==> (Together(more, i, j) <==> Together(log, i, j))
    ensures RunHolds(log, i, id) ==> RunHolds(more, i, id)
  {
    assert forall k :: 0 <= k < |log| ==> more[k] == log[k];
    if RunHolds(log, i, id) {
      var j :| Together(log, i, j) && log[j].submit.promptId == Some(id);
      assert Together(more, i, j);
    }
  }

  lemma TogetherJoins(log: seq<SessionEvent>, i: int, j: int, k: int)
    requires Together(log, i, k) && Together(log, j, k)
    ensures Together(log, i, j)
  {}

  /** What neither takes a message nor renames a turn, and leaves no line. */
  lemma NoLine(log: seq<SessionEvent>, c: Course, n: Course)
    requires OnLog(log, c) && n.taken == c.taken && n.names == c.names
    requires n.phase == c.phase || n.phase == c.phase.Closed() || (c.phase.Idle? && n.phase.Running?)
    ensures OnLog(log, n)
  {
    hide Together, RunHolds;
  }

  lemma OtherLineListed(log: seq<SessionEvent>, e: SessionEvent, c: Course, n: Course)
    requires Listed(log, c) && !IsChannel(e) && n.taken == c.taken
    ensures Listed(log + [e], n)
  {
    var more := log + [e];
    SameLines(log, more);
    assert forall i, r :: Takes(more, i, r) ==> Takes(log, i, r);
    forall r <- n.taken ensures exists i :: Takes(more, i, r) {
      var i :| Takes(log, i, r);
      assert Takes(more, i, r);
    }
    hide IdAt;
  }

  lemma OtherLineHeld(log: seq<SessionEvent>, e: SessionEvent, c: Course, n: Course)
    requires NamesHeld(log, c) && !IsChannel(e) && n.names == c.names
    ensures NamesHeld(log + [e], n)
  {
    var more := log + [e];
    LineAdded(log, more);
    SameLines(log, more);
    forall i | Replaced(more, n, i) ensures RunHolds(more, i, n.Final(IdAt(more, i))) {
      assert Replaced(log, c, i);
      RunHoldsOn(log, more, i, c.Final(IdAt(log, i)));
    }
    forall id <- n.names ensures exists i :: ChannelAt(more, i) && IdAt(more, i) == id {
      var i :| ChannelAt(log, i) && IdAt(log, i) == id;
      assert ChannelAt(more, i);
    }
    hide Together, IdAt;
  }

  lemma OtherLineRuns(log: seq<SessionEvent>, e: SessionEvent, c: Course, n: Course)
    requires OneTurn(log, c) && OneBatch(log, c) && !IsChannel(e) && n.names == c.names
    ensures OneTurn(log + [e], n) && OneBatch(log + [e], n)
  {
    var more := log + [e];
    LineAdded(log, more);
    SameLines(log, more);
    assert forall i, j :: Together(more, i, j) ==> i < |log| && j < |log|;
    assert forall i :: Replaced(more, n, i) ==> i < |log| && Replaced(log, c, i);
    hide Together, IdAt;
  }

  lemma OtherLine(log: seq<SessionEvent>, e: SessionEvent, c: Course, n: Course)
    requires OnLog(log, c) && !IsChannel(e) && n.taken == c.taken && n.names == c.names && !n.phase.Batch?
    ensures OnLog(log + [e], n)
  {
    assert LastRun(log + [e], n);
    hide Listed, OneTurn, OneBatch, NamesHeld, LastRun;
    OtherLineListed(log, e, c, n);
    OtherLineHeld(log, e, c, n);
    OtherLineRuns(log, e, c, n);
  }

  // A message's line.

  /** A message goes on with the running turn, renames it within its batch, or begins one under a new id. */
  ghost predicate Continues(log: seq<SessionEvent>, e: SessionEvent, c: Course, n: Course)
    requires IsChannel(e) && e.submit.promptId.Some?
  {
    var id, linked := e.submit.promptId.value, Linked(log + [e], |log|);
    && Named(c) && Named(n) && !n.phase.Idle? && n.phase.id == id
    && (n.names == c.names || (c.phase.Batch? && linked && n.names == c.Renamed(c.phase.id, id)))
    && (!c.phase.Idle? && n.names == c.names ==> id == c.phase.id)
    && (c.phase.Idle? || n.names != c.names ==> id !in c.used)
    && (linked ==> !c.phase.Idle? && ChannelAt(log, |log| - 1))
    && (n.phase.Batch? ==> n.phase.lastAtMs == e.submit.atMs && (c.phase.Idle? || (c.phase.Batch? && linked)))
  }

  lemma MessageContinues(log: seq<SessionEvent>, c: Course, submit: SubmitRecord)
    requires Named(c) && LastRun(log, c) && submit.promptId.Some? && submit.requestId.Some?
    requires TakeMessage(c, submit.promptId.value, submit.requestId.value, submit.atMs).Some?
    ensures var n := TakeMessage(c, submit.promptId.value, submit.requestId.value, submit.atMs).value;
            && Continues(log, Submit(submit), c, n)
            && n.taken == c.taken[submit.requestId.value := submit.promptId.value] && submit.requestId.value !in c.taken
  {
    MessageNamed(c, submit.promptId.value, submit.requestId.value, submit.atMs);
    if c.phase.Batch? {
      assert c.phase.id !in c.names && c.phase.id in c.Renamed(c.phase.id, submit.promptId.value);
    }
    hide Named, Together;
  }

  /** The turn that an earlier line is of, after the message. */
  lemma FinalNow(log: seq<SessionEvent>, e: SessionEvent, c: Course, n: Course, id: PromptId)
    requires IsChannel(e) && e.submit.promptId.Some? && Continues(log, e, c, n) && id in c.used
    ensures n.Final(id) == if !c.phase.Idle? && c.Final(id) == c.phase.id then n.phase.id else c.Final(id)
    ensures n.Final(id) == n.phase.id <==> !c.phase.Idle? && c.Final(id) == c.phase.id
    ensures id in n.names <==> id in c.names || (n.names != c.names && !c.phase.Idle? && id == c.phase.id)
  {
    FinalIsUsed(c, id);
    if n.names != c.names {
      assert c.phase.id !in c.names && id != n.phase.id;
      FinalRenamed(c, n, c.phase.id, n.phase.id, id);
    }
    hide Linked;
  }

  lemma ListedMore(log: seq<SessionEvent>, e: SessionEvent, c: Course, n: Course)
    requires Listed(log, c) && IsChannel(e) && e.submit.promptId.Some? && e.submit.requestId.value !in c.taken
    requires n.taken == c.taken[e.submit.requestId.value := e.submit.promptId.value]
    ensures Listed(log + [e], n)
  {
    var more, r := log + [e], e.submit.requestId.value;
    SameLines(log, more);
    forall x <- n.taken ensures exists i :: Takes(more, i, x) {
      if x == r {
        assert Takes(more, |log|, r);
      } else {
        var i :| Takes(log, i, x);
        assert Takes(more, i, x);
      }
    }
    assert forall i, x :: Takes(more, i, x) ==> if i == |log| then x == r else Takes(log, i, x);
    hide Takes;
  }

  /** What is known of an earlier line once the message's is added. */
  ghost predicate LineMoved(log: seq<SessionEvent>, more: seq<SessionEvent>, c: Course, n: Course, i: int) {
    var id := IdAt(more, i);
    && id == IdAt(log, i) && ChannelAt(log, i) && !n.phase.Idle?
    && n.Final(id) == (if !c.phase.Idle? && c.Final(id) == c.phase.id then n.phase.id else c.Final(id))
    && (n.Final(id) == n.phase.id <==> !c.phase.Idle? && c.Final(id) == c.phase.id)
    && (id in n.names <==> id in c.names || (n.names != c.names && !c.phase.Idle? && id == c.phase.id))
  }

  lemma LinesMoved(log: seq<SessionEvent>, e: SessionEvent, c: Course, n: Course, i: int)
    requires Listed(log, c) && IsChannel(e) && e.submit.promptId.Some? && Continues(log, e, c, n) && i < |log|
             && ChannelAt(log, i)
    ensures LineMoved(log, log + [e], c, n, i)
  {
    SameLines(log, log + [e]);
    assert Takes(log, i, log[i].submit.requestId.value);
    assert IdAt(log, i) in c.used;
    hide Continues, Listed, Named;
    FinalNow(log, e, c, n, IdAt(log, i));
  }

  lemma OneTurnMore(log: seq<SessionEvent>, e: SessionEvent, c: Course, n: Course)
    requires OnLog(log, c) && IsChannel(e) && e.submit.promptId.Some? && Continues(log, e, c, n)
    ensures OneTurn(log + [e], n)
  {
    var more := log + [e];
    LineAdded(log, more);
    assert n.Final(IdAt(more, |log|)) == n.phase.id;
    forall i, j | Together(more, i, j) ensures n.Final(IdAt(more, i)) == n.Final(IdAt(more, j)) {
      if i < |log| { LinesMoved(log, e, c, n, i); }
      if j < |log| { LinesMoved(log, e, c, n, j); }
      hide Listed, NamesHeld, OneBatch, IdAt;
    }
  }

  lemma LastRunMore(log: seq<SessionEvent>, e: SessionEvent, c: Course, n: Course)
    requires OnLog(log, c) && IsChannel(e) && e.submit.promptId.Some? && Continues(log, e, c, n)
    ensures LastRun(log + [e], n)
  {
    var more := log + [e];
    LineAdded(log, more);
    assert Together(more, |log|, |log|);
    forall i | i < |log| && ChannelAt(more, i) ensures LineMoved(log, more, c, n, i) {
      assert more[i] == log[i];
      LinesMoved(log, e, c, n, i);
    }
    hide Together, Listed, NamesHeld, OneBatch, OneTurn;
  }

  lemma NamesHeldMore(log: seq<SessionEvent>, e: SessionEvent, c: Course, n: Course)
    requires OnLog(log, c) && IsChannel(e) && e.submit.promptId.Some? && Continues(log, e, c, n)
    ensures NamesHeld(log + [e], n)
  {
    var more := log + [e];
    LineAdded(log, more);
    assert more[|log|] == e && IdAt(more, |log|) == n.phase.id && n.phase.id !in n.names;
    forall id <- n.names ensures exists i :: ChannelAt(more, i) && IdAt(more, i) == id {
      var i :| ChannelAt(log, i) && IdAt(log, i) == id;
      assert more[i] == log[i] && ChannelAt(more, i);
    }
    forall i | Replaced(more, n, i) ensures RunHolds(more, i, n.Final(IdAt(more, i))) {
      LinesMoved(log, e, c, n, i);
      RunHoldsOn(log, more, i, c.Final(IdAt(log, i)));
      if n.names != c.names && c.Final(IdAt(log, i)) == c.phase.id {
        assert Together(more, i, |log|);
      }
    }
  }

  lemma OneBatchMore(log: seq<SessionEvent>, e: SessionEvent, c: Course, n: Course)
    requires OnLog(log, c) && IsChannel(e) && e.submit.promptId.Some? && Continues(log, e, c, n)
    ensures OneBatch(log + [e], n)
  {
    var more := log + [e];
    LineAdded(log, more);
    assert !Replaced(more, n, |log|);
    forall i, j | Replaced(more, n, i) && Replaced(more, n, j) && n.Final(IdAt(more, i)) == n.Final(IdAt(more, j))
      ensures Together(more, i, j) {
      LinesMoved(log, e, c, n, i);
      LinesMoved(log, e, c, n, j);
      if n.names != c.names && c.Final(IdAt(log, i)) == c.phase.id {
        TogetherJoins(log, i, j, |log| - 1);
      } else {
        assert Replaced(log, c, i) && Replaced(log, c, j);
      }
      hide Together, Listed, OneTurn, NamesHeld, Named;
    }
  }

  lemma MessageLine(log: seq<SessionEvent>, c: Course, submit: SubmitRecord)
    requires Named(c) && OnLog(log, c) && submit.promptId.Some? && submit.requestId.Some?
    requires TakeMessage(c, submit.promptId.value, submit.requestId.value, submit.atMs).Some?
    ensures var n := TakeMessage(c, submit.promptId.value, submit.requestId.value, submit.atMs).value;
            OnLog(log + [Submit(submit)], n)
  {
    var e, n := Submit(submit), TakeMessage(c, submit.promptId.value, submit.requestId.value, submit.atMs).value;
    MessageContinues(log, c, submit);
    hide OneTurn, OneBatch, NamesHeld, LastRun, Listed, Continues, TakeMessage, Named;
    ListedMore(log, e, c, n);
    OneTurnMore(log, e, c, n);
    NamesHeldMore(log, e, c, n);
    OneBatchMore(log, e, c, n);
    LastRunMore(log, e, c, n);
  }

  /** What a record does to the log and to the course keeps the two in step. */
  lemma RecordOnLog(log: seq<SessionEvent>, c: Course, rec: Record)
    requires Named(c) && OnLog(log, c) && Advance(c, rec).Some?
    ensures OnLog(log + LineOf(rec), Advance(c, rec).value)
  {
    var n := Advance(c, rec).value;
    if rec.SubmitSeen? && rec.submit.promptId.Some? && rec.submit.requestId.Some? {
      hide OnLog;
      MessageLine(log, c, rec.submit);
    } else if LineOf(rec) == [] {
      assert log + LineOf(rec) == log;
      hide OnLog;
      NoLine(log, c, n);
    } else {
      hide OnLog;
      OtherLine(log, LineOf(rec)[0], c, n);
    }
  }

  /** The tracker's state, the course and the log, kept in step over a whole well-formed run. */
  lemma {:induction false} RunInStep(binding: bool, lastStopMs: Option<nat>, recs: seq<Record>, opens: set<RequestId>)
    requires CourseOf(binding, recs).Some? && forall rec <- recs :: StaysOpen(rec, opens)
    ensures var c := CourseOf(binding, recs).value;
            && Named(c) && OnCourse(Run(Init(binding, lastStopMs), recs).t, c, opens) && OnLog(LogOf(recs), c)
  {
    if recs != [] {
      var before, rec := recs[..|recs| - 1], recs[|recs| - 1];
      var f, c := Run(Init(binding, lastStopMs), before), CourseOf(binding, before).value;
      RunInStep(binding, lastStopMs, before, opens);
      RunKeeps(binding, lastStopMs, before);
      assert Flat(f.t);
      AdvanceOnCourse(f.t, c, opens, rec);
      AdvanceNamed(c, rec);
      RecordOnLog(LogOf(before), c, rec);
      hide Named, OnCourse, OnLog, Kept, Flat, Apply, Advance;
    }
  }

  // The two readings.

  /** A message for `r` came under `id`, apart from the run of `p`. */
  ghost predicate FoldedApart(log: seq<SessionEvent>, r: RequestId, id: PromptId, p: PromptId) {
    exists i :: Takes(log, i, r) && log[i].submit.promptId == Some(id) && !RunHolds(log, i, p)
  }

  /** The tracker still knows which turn `p` was a name of, or `p` was never replaced. */
  predicate Retained(t: Tracker, c: Course, p: PromptId) {
    p in c.names ==> p in t.alias.vals
  }

  predicate BoundTo(t: Tracker, r: RequestId, p: PromptId) {
    r in t.bound && t.bound[r] == t.Resolve(p)
  }

  lemma WaitsByLine(log: seq<SessionEvent>, c: Course, i: int, r: RequestId, p: PromptId)
    requires Listed(log, c) && Takes(log, i, r)
    ensures WaitsFor(log, r, p) <==> RunHolds(log, i, p)
  {
    assert LastTaken(log, r, i);
    hide Together;
  }

  /**
   By the log alone: a request waits for `p` iff its message's turn is that of
   `p`, and it was not folded in apart.
   */
  lemma WaitsByTurn(log: seq<SessionEvent>, c: Course, i: int, r: RequestId, p: PromptId)
    requires Named(c) && OnLog(log, c) && Takes(log, i, r)
    ensures WaitsFor(log, r, p) <==> c.Final(IdAt(log, i)) == c.Final(p) && !FoldedApart(log, r, c.Final(p), p)
  {
    WaitsByLine(log, c, i, r, p);
    var id := IdAt(log, i);
    assert ChannelAt(log, i) && log[i].submit.promptId == Some(id);
    if RunHolds(log, i, p) {
      var j :| Together(log, i, j) && log[j].submit.promptId == Some(p);
      assert c.Final(IdAt(log, j)) == c.Final(id);
    }
    if c.Final(id) == c.Final(p) && id != c.Final(p) {
      assert Replaced(log, c, i);
      if p in c.names {
        var j :| ChannelAt(log, j) && IdAt(log, j) == p;
        assert Replaced(log, c, j) && Together(log, i, j);
      }
      assert RunHolds(log, i, p);
    }
    hide Together;
  }

  /** For one request: whether it waits for a Stop of `p`, by the log, and whether it is bound to the turn `p` names. */
  lemma WaitsAsBound(log: seq<SessionEvent>, t: Tracker, c: Course, opens: set<RequestId>, r: RequestId, p: PromptId)
    requires Named(c) && OnCourse(t, c, opens) && OnLog(log, c) && r in opens
    ensures Retained(t, c, p) ==>
              (WaitsFor(log, r, p) <==> BoundTo(t, r, p) && !FoldedApart(log, r, t.Resolve(p), p))
              && (FoldedApart(log, r, t.Resolve(p), p) ==> BoundTo(t, r, p))
    ensures !Retained(t, c, p) ==> !BoundTo(t, r, p)
  {
    assert Retained(t, c, p) ==> t.Resolve(p) == c.Final(p);
    assert !Retained(t, c, p) ==> t.Resolve(p) == p && p in c.names;
    if r in c.taken {
      var i :| Takes(log, i, r);
      assert c.taken[r] == IdAt(log, i) && t.bound[r] == c.Final(IdAt(log, i));
      WaitsByTurn(log, c, i, r, p);
      FinalIsUsed(c, IdAt(log, i));
      if p in c.names {
        FinalIsUsed(c, p);
      }
      if FoldedApart(log, r, t.Resolve(p), p) && Retained(t, c, p) {
        assert IdAt(log, i) == c.Final(p) && c.Final(p) !in c.names;
      }
    }
    hide Together, OnLog, OnCourse, RunHolds;
  }

  lemma FiltersAgree<T>(s: seq<T>, p: T -> bool, q: T -> bool)
    ensures Filter(s, p) == Filter(s, q) <==> forall x <- s :: p(x) == q(x)
  {
    if forall x <- s :: p(x) == q(x) {
      FilterSame(s, p, q);
    }
    hide Filter;
    if Filter(s, p) == Filter(s, q) {
      assert forall x <- s :: p(x) <==> x in Filter(s, p);
      assert forall x <- s :: q(x) <==> x in Filter(s, q);
    }
  }

  /** Whether the log shows that the hook reads a Stop of `p` otherwise for `r` than the tracker. */
  ghost predicate SetApart(log: seq<SessionEvent>, t: Tracker, c: Course, r: RequestId, p: PromptId) {
    if Retained(t, c, p) then FoldedApart(log, r, t.Resolve(p), p) else WaitsFor(log, r, p)
  }

  lemma ReadAlike(log: seq<SessionEvent>, t: Tracker, c: Course, opens: set<RequestId>, r: RequestId, p: PromptId)
    requires Named(c) && OnCourse(t, c, opens) && OnLog(log, c) && r in opens
    ensures WaitsFor(log, r, p) == BoundTo(t, r, p) <==> !SetApart(log, t, c, r, p)
  {
    hide OnCourse, OnLog, Named, WaitsFor, Retained, FoldedApart, BoundTo;
    WaitsAsBound(log, t, c, opens, r, p);
  }

  /**
   Hook and tracker, on a well-formed log that reports prompt ids, at a Stop
   under any id: `waitingRequests` returns exactly the open requests that the
   tracker, having read the same lines, has bound to the turn `p` names, if
   and only if no open request came under the id the turn goes by outside
   the run of `p`; for an id the tracker no longer retains, if and only if
   no open request's run holds it.
   */
  lemma HookAgrees(binding: bool, lastStopMs: Option<nat>, recs: seq<Record>, open: OpenRequests, p: PromptId)
    requires CourseOf(binding, recs).Some? && ReportsIds(LogOf(recs))
    requires forall rec <- recs :: StaysOpen(rec, set r <- open.openIds)
    ensures var t, c := Run(Init(binding, lastStopMs), recs).t, CourseOf(binding, recs).value;
            Waiting(Some(open), LogOf(recs), Some(p)) == Some(Filter(open.openIds, r => BoundTo(t, r, p))) <==>
            forall r <- open.openIds :: !SetApart(LogOf(recs), t, c, r, p)
  {
    var opens := set r <- open.openIds;
    var c := CourseOf(binding, recs).value;
    var t := Run(Init(binding, lastStopMs), recs).t;
    hide OnCourse, OnLog, Named, Run, LogOf, CourseOf, WaitsFor, Filter, Retained, FoldedApart, BoundTo, StaysOpen;
    RunInStep(binding, lastStopMs, recs, opens);
    var log := LogOf(recs);
    forall r <- open.openIds ensures WaitsFor(log, r, p) == BoundTo(t, r, p) <==> !SetApart(log, t, c, r, p) {
      ReadAlike(log, t, c, opens, r, p);
    }
    hide SetApart;
    FiltersAgree(open.openIds, r => WaitsFor(log, r, p), r => BoundTo(t, r, p));
  }

  /** Under any id still retained, the hook names requests of that turn only. */
  lemma HookNamesItsTurn(binding: bool, lastStopMs: Option<nat>, recs: seq<Record>, open: OpenRequests, p: PromptId)
    requires CourseOf(binding, recs).Some? && ReportsIds(LogOf(recs))
    requires forall rec <- recs :: StaysOpen(rec, set r <- open.openIds)
    requires Retained(Run(Init(binding, lastStopMs), recs).t, CourseOf(binding, recs).value, p)
    ensures var waiting := Waiting(Some(open), LogOf(recs), Some(p));
            waiting.Some? && forall r <- waiting.value :: BoundTo(Run(Init(binding, lastStopMs), recs).t, r, p)
  {
    var opens := set r <- open.openIds;
    var c := CourseOf(binding, recs).value;
    var t := Run(Init(binding, lastStopMs), recs).t;
    RunInStep(binding, lastStopMs, recs, opens);
    hide OnCourse, OnLog, Named, Run, LogOf, CourseOf, WaitsFor, Retained, FoldedApart, BoundTo;
    forall r <- open.openIds ensures WaitsFor(LogOf(recs), r, p) ==> BoundTo(t, r, p) {
      WaitsAsBound(LogOf(recs), t, c, opens, r, p);
    }
  }

  /** A message under an id is in that id's run: under the id a turn goes by, nothing sets the two apart. */
  lemma OwnIdIsTogether(log: seq<SessionEvent>, t: Tracker, c: Course, r: RequestId, p: PromptId)
    requires p !in c.names && t.Resolve(p) == p
    ensures !SetApart(log, t, c, r, p)
  {
    forall i | Takes(log, i, r) && log[i].submit.promptId == Some(p) ensures RunHolds(log, i, p) {
      assert Together(log, i, i);
    }
  }

  /** At a Stop under the id a turn goes by, which no message took the place of, the two readings are one. */
  lemma LastIdAgrees(binding: bool, lastStopMs: Option<nat>, recs: seq<Record>, open: OpenRequests, p: PromptId)
    requires CourseOf(binding, recs).Some? && ReportsIds(LogOf(recs))
    requires forall rec <- recs :: StaysOpen(rec, set r <- open.openIds)
    requires p !in CourseOf(binding, recs).value.names
    ensures var t := Run(Init(binding, lastStopMs), recs).t;
            Waiting(Some(open), LogOf(recs), Some(p)) == Some(Filter(open.openIds, r => BoundTo(t, r, p)))
  {
    HookAgrees(binding, lastStopMs, recs, open, p);
    var t, c := Run(Init(binding, lastStopMs), recs).t, CourseOf(binding, recs).value;
    RunInStep(binding, lastStopMs, recs, set r <- open.openIds);
    assert t.Resolve(p) == p;
    hide OnCourse, OnLog, Named, Run, LogOf, CourseOf, SetApart, BoundTo, Waiting;
    forall r <- open.openIds ensures !SetApart(LogOf(recs), t, c, r, p) {
      OwnIdIsTogether(LogOf(recs), t, c, r, p);
    }
  }

  // Logs that are not well-formed, and what sets the two readings apart on them.

  function MessageAt(r: RequestId, p: PromptId, at: nat): Record {
    SubmitSeen(SubmitRecord(None, Some(p), Some(r), at), true, None)
  }

  function TypedAt(p: PromptId, at: nat): Record {
    SubmitSeen(SubmitRecord(None, Some(p), None, at), false, None)
  }

  function ToolAt(p: PromptId, at: nat): Record {
    ActivitySeen(TurnActivity(Some(p), at, at), None)
  }

  function StopAt(p: PromptId, at: nat): Record {
    StopSeen(StopRecord(None, Some(p), Some(false), None, at), None)
  }

  /** After three records, the hook and the tracker differ on whether `r` waits for a Stop of `p`. */
  ghost predicate Differ(t: Tracker, a: Record, b: Record, c: Record, r: RequestId, p: PromptId) {
    var u := Apply(Apply(Apply(t, a).state, b).state, c).state;
    WaitsFor(LineOf(a) + LineOf(b) + LineOf(c), r, p) != (r in u.bound && u.bound[r] == u.Resolve(p))
  }

  /** No turn runs, and no id stands for another. */
  ghost predicate Rests(t: Tracker) {
    t.binding && t.current.None? && t.alias == Empty() && |t.ended.keys| < ENDED_KEPT
  }

  /** The turn `p` runs since 0, its batch open until `until`, and no id stands for another. */
  ghost predicate Runs(t: Tracker, p: PromptId, until: Option<nat>) {
    && t.binding && t.IsCurrent(p) && t.current.value.turn.startedAtMs == 0 && t.current.value.batchUntilMs == until
    && t.alias == Empty() && |t.ended.keys| < ENDED_KEPT && p !in t.ended.vals
    && (forall r <- t.CurrentRequests() :: r in t.bound && t.bound[r] == p)
  }

  lemma MessageBegins(t: Tracker, p: PromptId, r: RequestId)
    requires Rests(t) && p !in t.ended.vals && r !in t.bound
    ensures var u := Apply(t, MessageAt(r, p, 0)).state;
            && Runs(u, p, Some(CHANNEL_BATCH_MS)) && u.CurrentRequests() == [r]
            && u.bound == t.bound[r := p] && u.ended == t.ended
  {}

  /** A message under another id, once the batch is closed, begins a turn of its own. */
  lemma MessageTakesOver(t: Tracker, p: PromptId, q: PromptId, s: RequestId)
    requires Runs(t, p, None) && q != p && q !in t.ended.vals && s !in t.bound
    ensures var u := Apply(t, MessageAt(s, q, 2)).state; u.bound == t.bound[s := q] && u.Resolve(q) == q
  {}

  lemma MessageRenames(t: Tracker, p: PromptId, q: PromptId, r: RequestId, s: RequestId)
    requires Runs(t, p, Some(CHANNEL_BATCH_MS)) && t.CurrentRequests() == [r]
    requires q != p && q !in t.ended.vals && s !in t.bound
    ensures var u := Apply(t, MessageAt(s, q, 2)).state;
            && u.bound == t.bound[r := q][s := q] && u.Resolve(p) == q && u.Resolve(q) == q && u.IsCurrent(q)
            && u.ended == t.ended && u.binding
  {
    assert Moved(t.alias, p, q) == t.alias;
    assert Enter(t, q, 2, None) == Rename(t, q);
    hide Moved;
  }

  lemma MessageFolds(t: Tracker, q: PromptId, r: RequestId, at: nat)
    requires t.binding && t.IsCurrent(q) && t.Resolve(q) == q && q !in t.ended.vals && r !in t.bound
    ensures var u := Apply(t, MessageAt(r, q, at)).state;
            && u.bound == t.bound[r := q] && u.alias == t.alias && u.ended == t.ended
            && (Runs(t, q, None) ==> Runs(u, q, None))
  {}

  lemma ToolCloses(t: Tracker, p: PromptId, until: Option<nat>)
    requires Runs(t, p, until)
    ensures var u := Apply(t, ToolAt(p, 1)).state; Runs(u, p, None) && u.bound == t.bound && u.ended == t.ended
  {}

  lemma TypedBegins(t: Tracker, p: PromptId)
    requires Rests(t) && p !in t.ended.vals
    ensures var u := Apply(t, TypedAt(p, 0)).state;
            Runs(u, p, None) && u.bound == t.bound && u.ended == t.ended && u.Resolve(p) == p && u.binding
              && u.IsCurrent(p)
  {}

  lemma LateStopPasses(t: Tracker, p: PromptId, o: PromptId)
    requires Runs(t, p, Some(CHANNEL_BATCH_MS)) && o in t.ended.vals
    ensures Apply(t, StopAt(o, 1)).state == t
  {}

  lemma OwnStopEnds(t: Tracker, p: PromptId, until: Option<nat>)
    requires Runs(t, p, until)
    ensures var u := Apply(t, StopAt(p, 1)).state;
            && u.current.None? && u.binding && u.alias == Empty() && u.bound == t.bound
            && forall q :: q != p && q !in t.ended.vals ==> q !in u.ended.vals
  {}

  lemma LinkedWaits(log: seq<SessionEvent>, i: nat, r: RequestId, q: PromptId)
    requires LastTaken(log, r, i) && Linked(log, i + 1) && log[i + 1].submit.promptId == Some(q)
    ensures WaitsFor(log, r, q)
  {
    assert Together(log, i, i + 1);
  }

  lemma WaitsAlone(log: seq<SessionEvent>, i: nat, r: RequestId, q: PromptId)
    requires LastTaken(log, r, i) && !Linked(log, i) && !Linked(log, i + 1)
    ensures WaitsFor(log, r, q) <==> log[i].submit.promptId == Some(q)
  {
    assert Together(log, i, i);
  }

  /** A tool call between two messages: the tracker sees the batch closed, the log does not show it. */
  lemma ToolCallSeparates(t: Tracker, p: PromptId, q: PromptId, r: RequestId, s: RequestId)
    requires Rests(t) && p != q && p !in t.ended.vals && q !in t.ended.vals && r != s && r !in t.bound && s !in t.bound
    ensures Differ(t, MessageAt(r, p, 0), ToolAt(p, 1), MessageAt(s, q, 2), r, q)
  {
    hide Apply, Runs, Rests;
    LinkedWaits(LineOf(MessageAt(r, p, 0)) + LineOf(ToolAt(p, 1)) + LineOf(MessageAt(s, q, 2)), 0, r, q);
    hide WaitsFor, LineOf, MessageAt, ToolAt;
    var u := Apply(t, MessageAt(r, p, 0)).state;
    MessageBegins(t, p, r);
    ToolCloses(u, p, Some(CHANNEL_BATCH_MS));
    MessageTakesOver(Apply(u, ToolAt(p, 1)).state, p, q, s);
  }

  /** A late Stop of an ended turn between two messages: it breaks the hook's batch, not the tracker's. */
  lemma LateStopSeparates(t: Tracker, o: PromptId, p: PromptId, q: PromptId, r: RequestId, s: RequestId)
    requires Rests(t) && o in t.ended.vals && p != q && p !in t.ended.vals && q !in t.ended.vals
    requires r != s && r !in t.bound && s !in t.bound
    ensures Differ(t, MessageAt(r, p, 0), StopAt(o, 1), MessageAt(s, q, 2), r, q)
  {
    hide Apply, Runs, Rests;
    WaitsAlone(LineOf(MessageAt(r, p, 0)) + LineOf(StopAt(o, 1)) + LineOf(MessageAt(s, q, 2)), 0, r, q);
    hide WaitsFor, LineOf, MessageAt, StopAt;
    var u := Apply(t, MessageAt(r, p, 0)).state;
    MessageBegins(t, p, r);
    LateStopPasses(u, p, o);
    MessageRenames(u, p, q, r, s);
  }

  /** A request submitted again: the tracker keeps its first binding, the hook reads the latest. */
  lemma ResubmitSeparates(t: Tracker, p: PromptId, q: PromptId, r: RequestId)
    requires Rests(t) && p != q && p !in t.ended.vals && q !in t.ended.vals && r !in t.bound
    ensures Differ(t, MessageAt(r, p, 0), StopAt(p, 1), MessageAt(r, q, 2), r, q)
  {
    hide Apply, Runs, Rests;
    WaitsAlone(LineOf(MessageAt(r, p, 0)) + LineOf(StopAt(p, 1)) + LineOf(MessageAt(r, q, 2)), 2, r, q);
    hide WaitsFor, LineOf, MessageAt, StopAt;
    var u := Apply(t, MessageAt(r, p, 0)).state;
    MessageBegins(t, p, r);
    OwnStopEnds(u, p, Some(CHANNEL_BATCH_MS));
    ResubmitKeeps(Apply(u, StopAt(p, 1)).state, q, r);
  }

  lemma ResubmitKeeps(t: Tracker, q: PromptId, r: RequestId)
    requires t.binding && t.current.None? && t.alias == Empty() && r in t.bound && q !in t.ended.vals
    ensures var u := Apply(t, MessageAt(r, q, 2)).state; u.bound == t.bound && u.Resolve(q) == q
  {}

  /** A fold into a turn whose batch is closed: the hook begins a batch there, the tracker does not. */
  lemma FoldSeparates(t: Tracker, p: PromptId, q: PromptId, r: RequestId, s: RequestId)
    requires Rests(t) && p != q && p !in t.ended.vals && q !in t.ended.vals && r != s && r !in t.bound && s !in t.bound
    ensures Differ(t, TypedAt(p, 0), MessageAt(r, p, 1), MessageAt(s, q, 2), r, q)
  {
    hide Apply, Runs, Rests;
    LinkedWaits(LineOf(TypedAt(p, 0)) + LineOf(MessageAt(r, p, 1)) + LineOf(MessageAt(s, q, 2)), 1, r, q);
    hide WaitsFor, LineOf, MessageAt, TypedAt;
    var u := Apply(t, TypedAt(p, 0)).state;
    TypedBegins(t, p);
    MessageFolds(u, p, r, 1);
    MessageTakesOver(Apply(u, MessageAt(r, p, 1)).state, p, q, s);
  }

  /** A Stop under a superseded id: the tracker counts a later fold in, the hook only the batch itself. */
  lemma SupersededSeparates(t: Tracker, p: PromptId, q: PromptId, r: RequestId, s: RequestId, x: RequestId)
    requires Rests(t) && p != q && p !in t.ended.vals && q !in t.ended.vals
    requires r != s && r != x && s != x && r !in t.bound && s !in t.bound && x !in t.bound
    ensures Differ(t, MessageAt(r, p, 0), MessageAt(s, q, 2), MessageAt(x, q, 40_000), x, p)
  {
    hide Apply, Runs, Rests;
    WaitsAlone(LineOf(MessageAt(r, p, 0)) + LineOf(MessageAt(s, q, 2)) + LineOf(MessageAt(x, q, 40_000)), 2, x, p);
    hide WaitsFor, LineOf, MessageAt;
    var u := Apply(t, MessageAt(r, p, 0)).state;
    MessageBegins(t, p, r);
    MessageRenames(u, p, q, r, s);
    MessageFolds(Apply(u, MessageAt(s, q, 2)).state, q, x, 40_000);
  }
}
