/**
 While turns are not followed by their ids: when a delivery is taken to start
 a turn, which requests own the running one, and whom a question reaches,
 said of the Stops counted and the deliveries made so far.
 */
module FallbackGuesses {
  import opened Records
  import opened OrderedMaps
  import opened Ledgers
  import opened LedgerHistory

  /** The Stops counted, once the one that `view` shows is, if it is later than all of them. */
  function CountedWith(counted: seq<TurnStop>, stop: Option<StopRecord>): seq<TurnStop> {
    if stop.Some? && (counted == [] || counted[|counted| - 1].stop.atMs < stop.value.atMs)
    then counted + [TurnStop(stop.value, None)] else counted
  }

  /** Something at `at` came no later than the last Stop counted. */
  predicate StoppedBy(counted: seq<TurnStop>, at: nat) {
    counted != [] && at <= counted[|counted| - 1].stop.atMs
  }

  lemma ShownIsCounted(l: Ledger, counted: seq<TurnStop>, stop: Option<StopRecord>)
    requires CountsStops(l, counted)
    ensures CountsStops(ObserveStop(l, AsStop(stop)), CountedWith(counted, stop))
    ensures forall x :: x in ObserveStop(l, AsStop(stop)).deliveries.vals <==> x in l.deliveries.vals
    ensures var o := ObserveStop(l, AsStop(stop));
            && o.byPromptId == l.byPromptId && o.lastDeliveryMs == l.lastDeliveryMs
            && o.deliveries.keys == l.deliveries.keys
            && forall x <- l.deliveries.vals ::
                 var d, e := l.deliveries.vals[x], o.deliveries.vals[x];
                 e == d.(firstStop := e.firstStop)
  {
    ObservedCounts(l, counted, AsStop(stop));
    hide CountsStops;
    assert CountedAfter(l, counted, AsStop(stop)) == CountedWith(counted, stop) by { LastIsCounted(l, counted); }
  }

  lemma LastIsCounted(l: Ledger, counted: seq<TurnStop>)
    requires CountsStops(l, counted)
    ensures l.lastStop == if counted == [] then None else Some(counted[|counted| - 1])
    ensures l.stops == |counted|
  {}

  /** The last delivery's time is kept, over every run. */
  lemma {:induction false} RunKnowsDeliveries(byPromptId: bool, ops: seq<Op>)
    ensures var k := Run(byPromptId, ops);
            k.l.lastDeliveryMs == if k.p.given == [] then None else Some(k.p.given[|k.p.given| - 1].atMs)
  {
    if ops != [] {
      var k, op := Run(byPromptId, ops[..|ops| - 1]), ops[|ops| - 1];
      RunKnowsDeliveries(byPromptId, ops[..|ops| - 1]);
      KnowsDelivery(k.l, k.p, op);
      hide Step, Recorded;
    }
  }

  lemma KnowsDelivery(l: Ledger, p: Past, op: Op)
    ensures Step(l, op).lastDeliveryMs == if op.Deliver? then Some(op.nowMs) else l.lastDeliveryMs
    ensures var q := Recorded(l, p, op);
            if op.Deliver? then q.given != [] && q.given[|q.given| - 1].atMs == op.nowMs else q.given == p.given
  {
    if op.Deliver? {
      hide ObserveStop, Quiet;
    } else {
      StepIsSameGuess(l, op);
      assert ObserveStop(l, LedgerHistory.Shown(op)).lastDeliveryMs == l.lastDeliveryMs;
      hide Step, ObserveStop;
      Nothing(p.given);
    }
  }

  /** An open prompt that was not taken to start a turn, and may yet be taken up: fewer than two Stops came since. */
  predicate StillWaits(l: Ledger, counted: seq<TurnStop>, open: set<RequestId>, x: RequestId) {
    && x in open && x in l.deliveries.vals && !l.deliveries.vals[x].startsTurn
    && |counted| < l.deliveries.vals[x].stopsBefore + 2
  }

  /** What makes the next delivery the one a turn starts with. */
  ghost predicate NothingRuns(k: LedgerHistory.Kept, view: TurnView, open: set<RequestId>) {
    var counted, given := CountedWith(k.p.counted, view.stop), k.p.given;
    && view.hooksActive
    && (view.stop.Some? ==> view.stop.value.background == Some(false))
    && (view.activity.Some? ==> StoppedBy(counted, view.activity.value.atMs))
    && (given != [] ==> StoppedBy(counted, given[|given| - 1].atMs))
    && forall x :: !StillWaits(k.l, counted, open, x)
  }

  lemma QuietIs(l: Ledger, o: Ledger, counted: seq<TurnStop>, given: seq<Given>, view: TurnView, open: set<RequestId>)
    requires CountsStops(o, counted)
    requires o.lastDeliveryMs == if given == [] then None else Some(given[|given| - 1].atMs)
    requires forall x :: x in o.deliveries.vals <==> x in l.deliveries.vals
    requires forall x <- l.deliveries.vals ::
               o.deliveries.vals[x].startsTurn == l.deliveries.vals[x].startsTurn
               && o.deliveries.vals[x].stopsBefore == l.deliveries.vals[x].stopsBefore
    ensures Quiet(o, view, open) <==>
            && view.hooksActive
            && (view.stop.Some? ==> view.stop.value.background == Some(false))
            && (view.activity.Some? ==> StoppedBy(counted, view.activity.value.atMs))
            && (given != [] ==> StoppedBy(counted, given[|given| - 1].atMs))
            && forall x :: !StillWaits(l, counted, open, x)
  {
    LastIsCounted(o, counted);
    hide CountsStops;
    forall x <- l.deliveries.vals | x in open
      ensures MayStillWait(o, o.deliveries.vals[x]) <==> StillWaits(l, counted, open, x) {}
  }

  /**
   Over any run of the ledger: a delivery is taken to start a turn if and only
   if the hooks run, the Stop just read left no background work, neither a
   tool call nor a delivery came after the last Stop counted, and no open
   prompt waits that may yet be taken up. It is recorded so, under the number
   of Stops counted.
   */
  lemma StartsTurnIff(byPromptId: bool, ops: seq<Op>, r: RequestId, view: TurnView, nowMs: nat, open: set<RequestId>)
    ensures var k := Run(byPromptId, ops);
            var (l, starts) := Delivered(k.l, r, view, nowMs, open);
            && (starts <==> NothingRuns(k, view, open))
            && r in l.deliveries.vals && l.lastDeliveryMs == Some(nowMs)
            && l.deliveries.vals[r] ==
               Delivery(nowMs, |CountedWith(k.p.counted, view.stop)|, starts, None, None, None, None, false)
  {
    var k := Run(byPromptId, ops);
    RunCounts(byPromptId, ops);
    RunKnowsDeliveries(byPromptId, ops);
    hide Run;
    ShownIsCounted(k.l, k.p.counted, view.stop);
    var o, counted := ObserveStop(k.l, AsStop(view.stop)), CountedWith(k.p.counted, view.stop);
    LastIsCounted(o, counted);
    hide ObserveStop, CountsStops, CountedWith, Quiet;
    QuietIs(k.l, o, counted, k.p.given, view, open);
  }

  // Whom a question reaches.

  /** In the fallback: `x` was delivered to start a turn, no Stop was counted since, and the turn's calls came after. */
  predicate StartedIt(l: Ledger, counted: seq<TurnStop>, firstMs: nat, x: RequestId) {
    && x in l.deliveries.vals && l.deliveries.vals[x].startsTurn
    && l.deliveries.vals[x].stopsBefore == |counted| && l.deliveries.vals[x].atMs <= firstMs
  }

  ghost predicate SeveralStarted(l: Ledger, counted: seq<TurnStop>, firstMs: nat) {
    exists x, y :: x != y && StartedIt(l, counted, firstMs, x) && StartedIt(l, counted, firstMs, y)
  }

  /** The tool call asking is of a turn that no Stop counted has ended, and names its prompt id. */
  predicate Asks(counted: seq<TurnStop>, view: TurnView) {
    && view.activity.Some? && !StoppedBy(counted, view.activity.value.atMs) && view.activity.value.promptId.Some?
  }

  /** A question is denied before anyone is looked for. */
  ghost predicate DeniedAtOnce(counted: seq<TurnStop>, view: TurnView, owner: QuestionOwner) {
    if view.activity.None? || StoppedBy(counted, view.activity.value.atMs) then owner == NoOwner(NoToolCall)
    else view.activity.value.promptId.None? && owner == NoOwner(NoPromptId)
  }

  lemma DeniedOrLookedFor(o: Ledger, counted: seq<TurnStop>, view: TurnView, open: set<RequestId>)
    requires o.lastStop == if counted == [] then None else Some(counted[|counted| - 1])
    ensures var (l, owner) := OwnerNow(o, view, open);
            && (DeniedAtOnce(counted, view, owner) <==> !Asks(counted, view))
            && (!Asks(counted, view) ==> l == o)
            && (owner == NoOwner(NoToolCall) || owner == NoOwner(NoPromptId) ==> !Asks(counted, view))
  {
    hide Starters, BoundNow, Claim;
  }

  /** In either mode, and only then: nothing was called since the last Stop counted, or the call has no prompt id. */
  lemma AsksOrDenied(byPromptId: bool, ops: seq<Op>, view: TurnView, open: set<RequestId>)
    ensures var k := Run(byPromptId, ops);
            var (l, owner) := OwnerOf(k.l, view, open);
            var counted := CountedWith(k.p.counted, view.stop);
            && (DeniedAtOnce(counted, view, owner) <==> !Asks(counted, view))
            && (!Asks(counted, view) ==> l == ObserveStop(k.l, AsStop(view.stop)))
            && (owner == NoOwner(NoToolCall) || owner == NoOwner(NoPromptId) ==> !Asks(counted, view))
  {
    var k := Run(byPromptId, ops);
    RunCounts(byPromptId, ops);
    hide Run;
    ShownIsCounted(k.l, k.p.counted, view.stop);
    LastIsCounted(ObserveStop(k.l, AsStop(view.stop)), CountedWith(k.p.counted, view.stop));
    hide ObserveStop, CountsStops, CountedWith, OwnerNow, DeniedAtOnce, Asks;
    DeniedOrLookedFor(ObserveStop(k.l, AsStop(view.stop)), CountedWith(k.p.counted, view.stop), view, open);
  }

  lemma StartersAre(l: Ledger, counted: seq<TurnStop>, firstMs: nat)
    requires l.stops == |counted|
    ensures NoDup(Starters(l, firstMs)) && forall x :: x in Starters(l, firstMs) <==> StartedIt(l, counted, firstMs, x)
  {
    FilterOnce(l.deliveries.keys,
               r => && r in l.deliveries.vals
                    && l.deliveries.vals[r].startsTurn && l.deliveries.vals[r].stopsBefore == l.stops
                    && firstMs >= l.deliveries.vals[r].atMs);
  }

  lemma OneOf<T>(s: seq<T>, x: T)
    requires NoDup(s) && x in s
    ensures |s| == 1 <==> forall y <- s :: y == x
    ensures |s| == 1 ==> s[0] == x
  {
    if |s| > 1 {
      assert s[0] in s && s[1] in s && s[0] != s[1];
    }
  }

  /** What a question of a turn still running comes to, in the fallback. */
  lemma OwnerAmongStarters(o: Ledger, counted: seq<TurnStop>, view: TurnView, open: set<RequestId>)
    requires o.stops == |counted| && !o.byPromptId && Asks(counted, view)
    requires o.lastStop == if counted == [] then None else Some(counted[|counted| - 1])
    ensures var (l, owner) := OwnerNow(o, view, open);
            var id, firstMs := view.activity.value.promptId, view.activity.value.firstMs;
            && (forall x :: StartedIt(o, counted, firstMs, x)
                            && (forall y :: StartedIt(o, counted, firstMs, y) ==> y == x) ==>
                  var kept := o.deliveries.vals[x].promptId;
                  && owner == (if kept.None? || kept == id then Owner(x) else NoOwner(TurnChanged))
                  && x in l.deliveries.vals
                  && l.deliveries.vals[x] == o.deliveries.vals[x].(promptId := if kept.None? then id else kept))
            && ((forall x :: !StartedIt(o, counted, firstMs, x))
                || SeveralStarted(o, counted, firstMs) ==>
                  owner == NoOwner(NoneStarted) && l == o)
  {
    var firstMs := view.activity.value.firstMs;
    var starters := Starters(o, firstMs);
    StartersAre(o, counted, firstMs);
    hide Starters, BoundNow, StartedIt;
    forall x | x in starters ensures |starters| == 1 <==> forall y <- starters :: y == x {
      OneOf(starters, x);
    }
    assert starters != [] ==> starters[0] in starters;
  }

  /**
   In the fallback, over any run: a question of a turn still running reaches
   the one request that started that turn, by the guess, and that keeps its
   prompt id from the first question on; a question under another id is
   denied, as is one when none started the turn, or several did.
   */
  lemma ReachesTheStarter(ops: seq<Op>, view: TurnView, open: set<RequestId>)
    requires var k := Run(false, ops); !k.l.byPromptId && Asks(CountedWith(k.p.counted, view.stop), view)
    ensures var k := Run(false, ops);
            var (l, owner) := OwnerOf(k.l, view, open);
            var counted, firstMs := CountedWith(k.p.counted, view.stop), view.activity.value.firstMs;
            var id := view.activity.value.promptId;
            && (forall x :: StartedIt(k.l, counted, firstMs, x)
                            && (forall y :: StartedIt(k.l, counted, firstMs, y) ==> y == x) ==>
                  var kept := k.l.deliveries.vals[x].promptId;
                  && owner == (if kept.None? || kept == id then Owner(x) else NoOwner(TurnChanged))
                  && x in l.deliveries.vals && l.deliveries.vals[x].promptId == if kept.None? then id else kept)
            && ((forall x :: !StartedIt(k.l, counted, firstMs, x))
                || SeveralStarted(k.l, counted, firstMs) ==>
                  owner == NoOwner(NoneStarted))
  {
    var k := Run(false, ops);
    var counted, firstMs := CountedWith(k.p.counted, view.stop), view.activity.value.firstMs;
    RunCounts(false, ops);
    hide Run;
    ShownIsCounted(k.l, k.p.counted, view.stop);
    var o := ObserveStop(k.l, AsStop(view.stop));
    LastIsCounted(o, counted);
    assert forall x :: StartedIt(o, counted, firstMs, x) <==> StartedIt(k.l, counted, firstMs, x);
    hide ObserveStop, CountsStops, CountedWith, OwnerNow, StartedIt, Asks;
    OwnerAmongStarters(o, counted, view, open);
  }

  /** In the fallback the owners are the open requests that started the turn no Stop has ended yet. */
  lemma FallbackOwners(ops: seq<Op>, open: set<RequestId>, r: RequestId)
    requires !Run(false, ops).l.byPromptId
    ensures var k := Run(false, ops);
            r in Owning(k.l, open) <==>
            && r in open && r in k.l.deliveries.vals && k.l.deliveries.vals[r].startsTurn
            && k.l.deliveries.vals[r].stopsBefore == |k.p.counted|
  {
    var k := Run(false, ops);
    RunCounts(false, ops);
    hide Run;
    LastIsCounted(k.l, k.p.counted);
    assert r in k.l.deliveries.vals ==> r in k.l.deliveries.keys;
    hide CountsStops;
  }
}
