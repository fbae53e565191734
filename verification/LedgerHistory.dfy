/**
 What the ledger keeps over any run of its operations: which Stops it has
 counted and which one each delivery saw first, and, in the fallback, that
 one prompt at most is taken to own a turn and that all questions sent to it
 came from one turn.
 */
module LedgerHistory {
  import opened Records
  import opened OrderedMaps
  import opened Ledgers

  /** An operation of the ledger's. `open` is what `finished` tells at that moment. */
  datatype Op =
    | Deliver(requestId: RequestId, view: TurnView, nowMs: nat, open: set<RequestId>)
    | CountStop(stop: TurnStop)
    | AskUnanswered(view: TurnView, nowMs: nat, graceMs: nat, open: set<RequestId>)
    | AskOwner(view: TurnView, open: set<RequestId>)
    | BindTo(requestId: RequestId, promptId: PromptId)
    | EndTurn(promptId: PromptId, end: BoundTurnEnd, open: set<RequestId>)
    | Drop(requestId: RequestId)
    | BeginBinding

  function Step(l: Ledger, op: Op): Ledger {
    match op
    case Deliver(r, view, nowMs, open) => Delivered(l, r, view, nowMs, open).0
    case CountStop(stop) => ObserveStop(l, Some(stop))
    case AskUnanswered(view, nowMs, graceMs, open) => UnansweredNow(l, view, nowMs, graceMs, open).0
    case AskOwner(view, open) => OwnerOf(l, view, open).0
    case BindTo(r, p) => Bind(l, r, p)
    case EndTurn(p, end, open) => TurnEnded(l, p, end, open)
    case Drop(r) => Forget(l, r)
    case BeginBinding => StartBinding(l)
  }

  /** A delivery as it was recorded, whether or not it was dropped since. */
  datatype Given = Given(requestId: RequestId, atMs: nat, stopsBefore: nat, startsTurn: bool)

  /** A question and its addressee; `promptId` is the asking tool call's. */
  datatype Asked = Asked(requestId: RequestId, promptId: PromptId)

  /** Everything of a run that the ledger itself does not keep. */
  datatype Past = Past(counted: seq<TurnStop>, given: seq<Given>, asked: seq<Asked>)

  /** The Stop an operation shows the ledger, if any. */
  function Shown(op: Op): Option<TurnStop> {
    match op
    case CountStop(stop) => Some(stop)
    case Deliver(_, view, _, _) => AsStop(view.stop)
    case AskUnanswered(view, _, _, _) => AsStop(view.stop)
    case AskOwner(view, _) => AsStop(view.stop)
    case _ => None
  }

  predicate Counts(l: Ledger, stop: Option<TurnStop>) {
    stop.Some? && (l.lastStop.Some? ==> l.lastStop.value.stop.atMs < stop.value.stop.atMs)
  }

  function CountedAfter(l: Ledger, counted: seq<TurnStop>, stop: Option<TurnStop>): seq<TurnStop> {
    if Counts(l, stop) then counted + [stop.value] else counted
  }

  function GivenBy(l: Ledger, op: Op): seq<Given> {
    if op.Deliver? then
      var n := Delivered(l, op.requestId, op.view, op.nowMs, op.open);
      [Given(op.requestId, op.nowMs, n.0.stops, n.1)]
    else []
  }

  function AskedBy(l: Ledger, op: Op): seq<Asked> {
    if op.AskOwner? && !l.byPromptId then
      var owner := OwnerOf(l, op.view, op.open).1;
      if owner.Owner? && op.view.activity.Some? && op.view.activity.value.promptId.Some?
      then [Asked(owner.requestId, op.view.activity.value.promptId.value)] else []
    else []
  }

  function Recorded(l: Ledger, p: Past, op: Op): Past {
    Past(CountedAfter(l, p.counted, Shown(op)), p.given + GivenBy(l, op), p.asked + AskedBy(l, op))
  }

  datatype Kept = Kept(l: Ledger, p: Past)

  function Run(byPromptId: bool, ops: seq<Op>): Kept {
    if ops == [] then Kept(Init(byPromptId), Past([], [], []))
    else
      var k := Run(byPromptId, ops[..|ops| - 1]);
      Kept(Step(k.l, ops[|ops| - 1]), Recorded(k.l, k.p, ops[|ops| - 1]))
  }

  // The Stops counted.

  /** The counted Stops' times strictly increase, and each delivery's first Stop is the one counted next after it. */
  ghost predicate CountsStops(l: Ledger, counted: seq<TurnStop>) {
    && l.stops == |counted|
    && l.lastStop == (if counted == [] then None else Some(counted[|counted| - 1]))
    && (forall i, j :: 0 <= i < j < |counted| ==> counted[i].stop.atMs < counted[j].stop.atMs)
    && (forall r <- l.deliveries.vals :: SawFirst(l.deliveries.vals[r], counted))
  }

  ghost predicate SawFirst(d: Delivery, counted: seq<TurnStop>) {
    && d.stopsBefore <= |counted|
    && d.firstStop == if d.stopsBefore == |counted| then None else Some(counted[d.stopsBefore])
  }

  ghost predicate GivenBefore(p: Past) {
    forall g <- p.given :: g.stopsBefore <= |p.counted|
  }

  lemma ObservedCounts(l: Ledger, counted: seq<TurnStop>, stop: Option<TurnStop>)
    requires CountsStops(l, counted)
    ensures CountsStops(ObserveStop(l, stop), CountedAfter(l, counted, stop))
    ensures !Counts(l, stop) ==> ObserveStop(l, stop) == l
  {
    if Counts(l, stop) {
      var o := ObserveStop(l, stop);
      var c := counted + [stop.value];
      forall r <- o.deliveries.vals ensures SawFirst(o.deliveries.vals[r], c) {
        assert SawFirst(l.deliveries.vals[r], counted);
      }
    }
  }

  /** What an operation other than a delivery leaves as it was, once the Stop it shows is observed. */
  ghost predicate SameGuess(o: Ledger, n: Ledger) {
    && n.stops == o.stops && n.lastStop == o.lastStop && n.lastDeliveryMs == o.lastDeliveryMs
    && forall r <- n.deliveries.vals ::
         && r in o.deliveries.vals
         && var d, e := o.deliveries.vals[r], n.deliveries.vals[r];
            e.atMs == d.atMs && e.stopsBefore == d.stopsBefore && e.startsTurn == d.startsTurn
              && e.firstStop == d.firstStop
  }

  lemma StepIsSameGuess(l: Ledger, op: Op)
    requires !op.Deliver?
    ensures SameGuess(ObserveStop(l, Shown(op)), Step(l, op))
  {
    assert ObserveStop(l, None) == l;
    match op
    case AskOwner(view, open) =>
      OwnerNowIsSameGuess(ObserveStop(l, AsStop(view.stop)), view, open);
      hide SameGuess, OwnerNow, ObserveStop;
    case BindTo(r, p) => BindIsSameGuess(l, r, p); hide SameGuess;
    case EndTurn(p, end, open) => EndTurnIsSameGuess(l, p, end, open); hide SameGuess;
    case _ =>
      hide ObserveStop, UnansweredIn;
  }

  lemma BindIsSameGuess(l: Ledger, r: RequestId, p: PromptId)
    ensures SameGuess(l, Bind(l, r, p))
  {}

  lemma EndTurnIsSameGuess(l: Ledger, p: PromptId, end: BoundTurnEnd, open: set<RequestId>)
    ensures SameGuess(l, TurnEnded(l, p, end, open))
  {}

  lemma OwnerNowIsSameGuess(l: Ledger, view: TurnView, open: set<RequestId>)
    ensures SameGuess(l, OwnerNow(l, view, open).0)
  {
    hide Starters, BoundNow;
    if OwnerNow(l, view, open).0 != l {
      var r := Starters(l, view.activity.value.firstMs)[0];
      assert OwnerNow(l, view, open).0 == Claim(l, r, view.activity.value.promptId.value);
    }
  }

  lemma SameGuessCounts(o: Ledger, n: Ledger, counted: seq<TurnStop>)
    requires SameGuess(o, n) && CountsStops(o, counted)
    ensures CountsStops(n, counted)
  {
    forall r <- n.deliveries.vals ensures SawFirst(n.deliveries.vals[r], counted) {
      assert SawFirst(o.deliveries.vals[r], counted);
    }
  }

  lemma StepCounts(l: Ledger, p: Past, op: Op)
    requires CountsStops(l, p.counted) && GivenBefore(p)
    ensures CountsStops(Step(l, op), Recorded(l, p, op).counted) && GivenBefore(Recorded(l, p, op))
  {
    ObservedCounts(l, p.counted, Shown(op));
    var o := ObserveStop(l, Shown(op));
    if op.Deliver? {
      assert SawFirst(Fresh(op.nowMs, o.stops, Quiet(o, op.view, op.open)), Recorded(l, p, op).counted);
      hide ObserveStop, Quiet;
    } else {
      StepIsSameGuess(l, op);
      SameGuessCounts(o, Step(l, op), Recorded(l, p, op).counted);
      hide Step, ObserveStop;
    }
  }

  lemma {:induction false} RunCounts(byPromptId: bool, ops: seq<Op>)
    ensures var k := Run(byPromptId, ops); CountsStops(k.l, k.p.counted) && GivenBefore(k.p)
  {
    if ops != [] {
      var k := Run(byPromptId, ops[..|ops| - 1]);
      RunCounts(byPromptId, ops[..|ops| - 1]);
      StepCounts(k.l, k.p, ops[|ops| - 1]);
    }
  }

  /** Showing the ledger again any Stop it has counted changes nothing. */
  lemma CountedOnce(l: Ledger, counted: seq<TurnStop>, i: nat)
    requires CountsStops(l, counted) && i < |counted|
    ensures ObserveStop(l, Some(counted[i])) == l
  {
    assert counted[i].stop.atMs <= counted[|counted| - 1].stop.atMs;
  }

  /**
   In the fallback, what ends an open prompt is the Stop counted next after
   it was delivered, if that one left no background work and came later: with
   its text when the prompt started the turn; any other is left to the grace
   rule, and one with no Stop counted since is spared.
   */
  lemma FallbackJudges(l: Ledger, counted: seq<TurnStop>, r: RequestId, graceOver: bool)
    requires CountsStops(l, counted) && !l.byPromptId && r in l.deliveries.vals
    ensures var d, judged := l.deliveries.vals[r], Judge(l.deliveries.vals[r], l.byPromptId, graceOver);
            if d.stopsBefore == |counted| then judged.None?
            else
              var first := counted[d.stopsBefore];
              if d.startsTurn && first.stop.background == Some(false) && d.atMs < first.stop.atMs then
                judged == Some(Ending(if first.failure.Some? then ItsTurnFailed else ItsTurnEnded,
                                      if first.failure.Some? then None else first.stop.finalText, first.failure))
              else judged == if graceOver then GRACE_RAN_OUT else None
  {
    assert SawFirst(l.deliveries.vals[r], counted);
  }

  // The fallback's guess.

  /** Each delivery is of a new request, stamped strictly after every Stop counted before it. */
  ghost predicate Stamped(counted: seq<TurnStop>, given: seq<Given>) {
    && (forall i, j :: 0 <= i < j < |given| ==> given[i].requestId != given[j].requestId)
    && (forall g <- given, k :: 0 <= k < g.stopsBefore && k < |counted| ==> counted[k].stop.atMs < g.atMs)
  }

  /** No delivery made in the same interval between counted Stops comes before one that starts a turn. */
  ghost predicate StartsFirst(given: seq<Given>) {
    forall i, j :: 0 <= i < j < |given| ==>
      && given[i].stopsBefore <= given[j].stopsBefore
      && (given[j].startsTurn ==> given[i].stopsBefore < given[j].stopsBefore)
  }

  ghost predicate Guesses(l: Ledger, p: Past) {
    && StartsFirst(p.given)
    && l.lastDeliveryMs == (if p.given == [] then None else Some(p.given[|p.given| - 1].atMs))
    && GivenBefore(p)
    && (forall r <- l.deliveries.vals ::
          var d := l.deliveries.vals[r]; Given(r, d.atMs, d.stopsBefore, d.startsTurn) in p.given)
  }

  /** Every question sent to a request carried the prompt id of the first. */
  ghost predicate OneTurnEach(l: Ledger, p: Past) {
    && (forall a <- p.asked :: (exists g <- p.given :: g.requestId == a.requestId)
                               && (a.requestId in l.deliveries.vals ==>
                                     l.deliveries.vals[a.requestId].promptId == Some(a.promptId)))
    && (forall a <- p.asked, b <- p.asked :: a.requestId == b.requestId ==> a.promptId == b.promptId)
  }

  /** A prompt that starts a turn comes after a Stop that came after every delivery before it. */
  lemma StartsAfterAStop(o: Ledger, p: Past, view: TurnView, open: set<RequestId>)
    requires CountsStops(o, p.counted) && Guesses(o, p) && Quiet(o, view, open)
    requires Stamped(p.counted, p.given)
    ensures forall g <- p.given :: g.stopsBefore < o.stops
  {
    if p.given != [] {
      var last := p.given[|p.given| - 1];
      assert last in p.given;
      assert last.stopsBefore < o.stops;
    }
  }

  lemma ObservedGuesses(l: Ledger, p: Past, stop: Option<TurnStop>)
    requires Guesses(l, p)
    ensures Guesses(ObserveStop(l, stop), p.(counted := CountedAfter(l, p.counted, stop)))
  {}

  lemma StampedPrefix(counted: seq<TurnStop>, given: seq<Given>, g: Given)
    requires Stamped(counted, given + [g])
    ensures Stamped(counted, given)
  {
    assert forall i :: 0 <= i < |given| ==> (given + [g])[i] == given[i];
    assert forall h <- given :: h in given + [g];
  }

  lemma SameGuessGuesses(o: Ledger, n: Ledger, p: Past, q: Past)
    requires SameGuess(o, n) && Guesses(o, p) && q.given == p.given && q.counted == p.counted
    ensures Guesses(n, q)
  {}

  /** Whatever the delivery's guess, no earlier one of its interval comes before a start. */
  lemma DeliveryStartsFirst(o: Ledger, p: Past, op: Op, g: Given)
    requires op.Deliver? && CountsStops(o, p.counted) && Guesses(o, p) && Stamped(p.counted, p.given + [g])
    ensures Quiet(o, op.view, op.open) ==> forall h <- p.given :: h.stopsBefore < o.stops
  {
    hide Quiet, Guesses, CountsStops, Stamped;
    if Quiet(o, op.view, op.open) {
      StampedPrefix(p.counted, p.given, g);
      StartsAfterAStop(o, p, op.view, op.open);
    }
  }

  lemma StepGuesses(l: Ledger, p: Past, op: Op)
    requires CountsStops(l, p.counted) && Guesses(l, p)
    requires Stamped(Recorded(l, p, op).counted, Recorded(l, p, op).given)
    ensures Guesses(Step(l, op), Recorded(l, p, op))
  {
    hide ObserveStop, Quiet, Guesses, Stamped, CountsStops, SameGuess;
    var o := ObserveStop(l, Shown(op));
    var q := Recorded(l, p, op);
    var observed := p.(counted := q.counted);
    ObservedCounts(l, p.counted, Shown(op));
    ObservedGuesses(l, p, Shown(op));
    if op.Deliver? {
      DeliveryStartsFirst(o, observed, op, GivenBy(l, op)[0]);
      assert o.stops == |observed.counted| by { StopsAreCounted(o, observed.counted); }
      DeliveredGuesses(o, observed, Fresh(op.nowMs, o.stops, Quiet(o, op.view, op.open)), op.requestId);
      GuessesAside(Step(l, op), p.(given := q.given, counted := q.counted), q);
    } else {
      StepIsSameGuess(l, op);
      hide Step;
      assert q.given == p.given;
      SameGuessGuesses(o, Step(l, op), observed, q);
    }
  }

  lemma StopsAreCounted(l: Ledger, counted: seq<TurnStop>)
    requires CountsStops(l, counted)
    ensures l.stops == |counted|
  {}

  /** The guess is not about the questions asked. */
  lemma GuessesAside(l: Ledger, p: Past, q: Past)
    requires Guesses(l, p) && q.given == p.given && q.counted == p.counted
    ensures Guesses(l, q)
  {}

  lemma DeliveredGuesses(o: Ledger, p: Past, d: Delivery, r: RequestId)
    requires Guesses(o, p) && o.stops == |p.counted| && d.stopsBefore == o.stops
    requires d.startsTurn ==> forall g <- p.given :: g.stopsBefore < o.stops
    ensures Guesses(o.(deliveries := Put(o.deliveries, r, d), lastDeliveryMs := Some(d.atMs)),
                    p.(given := p.given + [Given(r, d.atMs, d.stopsBefore, d.startsTurn)]))
  {
    var g := Given(r, d.atMs, d.stopsBefore, d.startsTurn);
    var given := p.given + [g];
    assert g in given;
    assert forall h <- p.given :: h in given;
    forall i, j | 0 <= i < j < |given| ensures given[i].stopsBefore <= given[j].stopsBefore
                                               && (given[j].startsTurn ==>
                                                   given[i].stopsBefore < given[j].stopsBefore) {
      assert given[i] in p.given;
    }
  }

  /** In the fallback, at most one delivered request owns a turn: the running one, or the next. */
  lemma OneOwner(l: Ledger, p: Past, open: set<RequestId>, firstMs: nat)
    requires Guesses(l, p) && !l.byPromptId
    ensures forall r <- Owning(l, open), s <- Owning(l, open) :: r == s
    ensures forall r <- Starters(l, firstMs), s <- Starters(l, firstMs) :: r == s
  {
    forall r <- l.deliveries.vals, s <- l.deliveries.vals |
      && l.deliveries.vals[r].startsTurn && l.deliveries.vals[s].startsTurn
      && l.deliveries.vals[r].stopsBefore == l.deliveries.vals[s].stopsBefore
      ensures r == s
    {
      var i :| 0 <= i < |p.given|
               && p.given[i] == Given(r, l.deliveries.vals[r].atMs, l.deliveries.vals[r].stopsBefore, true);
      var j :| 0 <= j < |p.given|
               && p.given[j] == Given(s, l.deliveries.vals[s].atMs, l.deliveries.vals[s].stopsBefore, true);
    }
  }

  /** A question sent in the fallback is sent for the turn whose prompt id the delivery keeps. */
  lemma AskedIsKept(l: Ledger, view: TurnView, open: set<RequestId>)
    requires !l.byPromptId
    ensures var r := OwnerOf(l, view, open);
            && (forall x <- l.deliveries.vals :: x in r.0.deliveries.vals &&
                  (l.deliveries.vals[x].promptId.Some? ==>
                   r.0.deliveries.vals[x].promptId == l.deliveries.vals[x].promptId))
            && (r.1.Owner? ==>
                  && view.activity.Some? && r.1.requestId in l.deliveries.vals
                  && r.0.deliveries.vals[r.1.requestId].promptId == view.activity.value.promptId)
  {
    var o := ObserveStop(l, AsStop(view.stop));
    assert forall x <- l.deliveries.vals :: o.deliveries.vals[x].promptId == l.deliveries.vals[x].promptId;
    assert o.deliveries.vals.Keys == l.deliveries.vals.Keys && !o.byPromptId;
    hide ObserveStop, BoundNow, Starters;
  }

  /** No other operation touches the prompt id a delivery keeps. */
  lemma KeepsAskedIds(l: Ledger, op: Op)
    requires !(op.AskOwner? && !l.byPromptId)
    ensures forall x <- Step(l, op).deliveries.vals | !(op.Deliver? && op.requestId == x) ::
              && x in l.deliveries.vals
              && Step(l, op).deliveries.vals[x].promptId == l.deliveries.vals[x].promptId
  {
    var o := ObserveStop(l, Shown(op));
    ObservedKeepsIds(l, Shown(op));
    hide ObserveStop;
    if op.AskOwner? {
      hide Starters, BoundNow, Claim;
      assert Step(l, op) == o;
    } else if op.Deliver? || op.AskUnanswered? {
      hide Quiet;
    } else if op.EndTurn? {
      EndKeepsIds(l, op.promptId, op.end, op.open);
      hide TurnEnded;
    }
  }

  lemma ObservedKeepsIds(l: Ledger, stop: Option<TurnStop>)
    ensures var o := ObserveStop(l, stop);
            && o.deliveries.vals.Keys == l.deliveries.vals.Keys
            && forall x <- l.deliveries.vals :: o.deliveries.vals[x].promptId == l.deliveries.vals[x].promptId
  {}

  lemma EndKeepsIds(l: Ledger, p: PromptId, end: BoundTurnEnd, open: set<RequestId>)
    ensures var n := TurnEnded(l, p, end, open);
            && n.deliveries.vals.Keys == l.deliveries.vals.Keys
            && forall x <- l.deliveries.vals :: n.deliveries.vals[x].promptId == l.deliveries.vals[x].promptId
  {}

  lemma StepAsksOneTurn(l: Ledger, p: Past, op: Op)
    requires OneTurnEach(l, p) && Guesses(l, p)
    requires forall g <- p.given :: op.Deliver? ==> g.requestId != op.requestId
    ensures OneTurnEach(Step(l, op), Recorded(l, p, op))
  {
    var q := Recorded(l, p, op);
    assert forall g <- p.given :: g in q.given;
    if op.AskOwner? && !l.byPromptId {
      AskedIsKept(l, op.view, op.open);
      AskAsksOneTurn(l, p, op);
    } else {
      KeepsAskedIds(l, op);
      hide Step;
      assert q.asked == p.asked;
    }
  }

  lemma AskAsksOneTurn(l: Ledger, p: Past, op: Op)
    requires op.AskOwner? && !l.byPromptId && OneTurnEach(l, p) && Guesses(l, p)
    ensures OneTurnEach(Step(l, op), Recorded(l, p, op))
  {
    AskedIsKept(l, op.view, op.open);
    var n := OwnerOf(l, op.view, op.open);
    var q := Recorded(l, p, op);
    var asked := AskedBy(l, op);
    AskIsRecorded(l, p, op);
    AskedIsGiven(l, p, op);
    AskedStaysInPlace(l, op);
    hide OwnerOf, Recorded, AskedBy, Step, Guesses;
    AsksOneTurnMore(l, n.0, p, q, asked);
  }

  lemma AskIsRecorded(l: Ledger, p: Past, op: Op)
    requires op.AskOwner?
    ensures var n, q, asked := OwnerOf(l, op.view, op.open), Recorded(l, p, op), AskedBy(l, op);
            && q.given == p.given && q.asked == p.asked + asked && Step(l, op) == n.0 && |asked| <= 1
            && forall a <- asked ::
                 && n.1.Owner? && a.requestId == n.1.requestId
                 && op.view.activity.Some? && Some(a.promptId) == op.view.activity.value.promptId
  {
    hide OwnerOf, ObserveStop;
  }

  lemma AskedIsGiven(l: Ledger, p: Past, op: Op)
    requires op.AskOwner? && !l.byPromptId && Guesses(l, p)
    ensures forall a <- AskedBy(l, op) :: exists g <- p.given :: g.requestId == a.requestId
  {
    hide OwnerOf, StartsFirst;
    AskedIsKept(l, op.view, op.open);
  }

  /** A question adds no delivery. */
  lemma AskedStaysInPlace(l: Ledger, op: Op)
    requires op.AskOwner?
    ensures forall r <- Step(l, op).deliveries.vals :: r in l.deliveries.vals
  {
    StepIsSameGuess(l, op);
    assert ObserveStop(l, Shown(op)).deliveries.vals.Keys == l.deliveries.vals.Keys;
    hide OwnerOf, ObserveStop;
  }

  lemma AsksOneTurnMore(l: Ledger, n: Ledger, p: Past, q: Past, asked: seq<Asked>)
    requires OneTurnEach(l, p) && q.given == p.given && q.asked == p.asked + asked && |asked| <= 1
    requires forall r <- n.deliveries.vals :: r in l.deliveries.vals
    requires forall r <- l.deliveries.vals ::
               r in n.deliveries.vals
               && (l.deliveries.vals[r].promptId.Some? ==>
                   n.deliveries.vals[r].promptId == l.deliveries.vals[r].promptId)
    requires forall a <- asked ::
               && (exists g <- p.given :: g.requestId == a.requestId)
               && a.requestId in l.deliveries.vals && n.deliveries.vals[a.requestId].promptId == Some(a.promptId)
    ensures OneTurnEach(n, q)
  {
    forall a <- q.asked ensures (exists g <- q.given :: g.requestId == a.requestId)
                                && (a.requestId in n.deliveries.vals ==>
                                    n.deliveries.vals[a.requestId].promptId == Some(a.promptId)) {
      assert a in p.asked || a in asked;
    }
    forall a <- q.asked, b <- q.asked | a.requestId == b.requestId ensures a.promptId == b.promptId {
      assert (a in p.asked || a in asked) && (b in p.asked || b in asked);
    }
  }

  /**
   Fallback ownership over whole runs: with every delivery stamped after the
   Stops counted before it, one delivery at most per interval starts a turn,
   and every request's questions carry a single prompt id.
   */
  lemma {:induction false} RunGuesses(byPromptId: bool, ops: seq<Op>)
    requires var k := Run(byPromptId, ops); Stamped(k.p.counted, k.p.given)
    ensures var k := Run(byPromptId, ops); Guesses(k.l, k.p) && OneTurnEach(k.l, k.p)
  {
    if ops != [] {
      var before := ops[..|ops| - 1];
      var k := Run(byPromptId, before);
      var n := Run(byPromptId, ops);
      RunCounts(byPromptId, before);
      StampedBefore(k, ops[|ops| - 1]);
      RunGuesses(byPromptId, before);
      StepGuesses(k.l, k.p, ops[|ops| - 1]);
      StepAsksOneTurn(k.l, k.p, ops[|ops| - 1]);
    }
  }

  lemma StampedBefore(k: Kept, op: Op)
    requires CountsStops(k.l, k.p.counted)
    requires Stamped(Recorded(k.l, k.p, op).counted, Recorded(k.l, k.p, op).given)
    requires GivenBefore(k.p)
    ensures Stamped(k.p.counted, k.p.given)
    ensures forall g <- k.p.given :: op.Deliver? ==> g.requestId != op.requestId
  {
    var q := Recorded(k.l, k.p, op);
    forall g <- k.p.given ensures g in q.given {}
    assert |k.p.counted| <= |q.counted| && q.counted[..|k.p.counted|] == k.p.counted;
    forall g <- k.p.given, i | 0 <= i < g.stopsBefore && i < |k.p.counted| ensures k.p.counted[i].stop.atMs < g.atMs {
      assert q.counted[i] == k.p.counted[i];
    }
    forall i, j | 0 <= i < j < |k.p.given| ensures k.p.given[i].requestId != k.p.given[j].requestId {
      assert q.given[i] == k.p.given[i] && q.given[j] == k.p.given[j];
    }
    if op.Deliver? {
      forall g <- k.p.given ensures g.requestId != op.requestId {
        var i :| 0 <= i < |k.p.given| && k.p.given[i] == g;
        assert q.given[i] == g && q.given[|k.p.given|].requestId == op.requestId;
      }
    }
  }

  // Runs that end with two owners.

  const NOTHING_SEEN := TurnView(None, None, true)

  lemma RunMore(byPromptId: bool, ops: seq<Op>, op: Op)
    ensures Run(byPromptId, ops + [op]) ==
            Kept(Step(Run(byPromptId, ops).l, op), Recorded(Run(byPromptId, ops).l, Run(byPromptId, ops).p, op))
  {
    assert (ops + [op])[..|ops|] == ops;
    hide Step, Recorded;
  }

  /** Both requests are recorded, open, and own the running turn. */
  ghost predicate OwnedByBoth(l: Ledger, r: RequestId, s: RequestId) {
    r != s && r in Owning(l, {r, s}) && s in Owning(l, {r, s})
  }

  lemma DeliverAdds(l: Ledger, r: RequestId, nowMs: nat, open: set<RequestId>)
    requires r !in l.deliveries.vals
    ensures Step(l, Deliver(r, NOTHING_SEEN, nowMs, open)) ==
            l.(deliveries := Put(l.deliveries, r, Fresh(nowMs, l.stops, Quiet(l, NOTHING_SEEN, open))),
               lastDeliveryMs := Some(nowMs))
  {
    hide Quiet;
  }

  lemma BindSets(l: Ledger, r: RequestId, p: PromptId)
    requires r in l.deliveries.vals
    ensures var n := Step(l, BindTo(r, p));
            n == l.(deliveries := Put(l.deliveries, r, l.deliveries.vals[r].(boundTo := Some(p))))
  {}

  lemma OneByOne<T>(a: T, b: T, c: T, d: T)
    ensures [a, b, c] == [] + [a] + [b] + [c] && [a, b, c, d] == [] + [a] + [b] + [c] + [d]
  {}

  /** By prompt ids: two requests folded into one turn own it together. */
  lemma FoldedOwnTogether(r: RequestId, s: RequestId, p: PromptId)
    requires r != s
    ensures var ops := [Deliver(r, NOTHING_SEEN, 0, {r}), BindTo(r, p), Deliver(s, NOTHING_SEEN, 1, {r, s}),
                        BindTo(s, p)];
            OwnedByBoth(Run(true, ops).l, r, s)
  {
    var a, b := Deliver(r, NOTHING_SEEN, 0, {r}), BindTo(r, p);
    var c, d := Deliver(s, NOTHING_SEEN, 1, {r, s}), BindTo(s, p);
    OneByOne(a, b, c, d);
    RunMore(true, [], a);
    RunMore(true, [] + [a], b);
    RunMore(true, [] + [a] + [b], c);
    RunMore(true, [] + [a] + [b] + [c], d);
    assert Run(true, []).l == Init(true);
    hide Run, Quiet, Step, Recorded;
    DeliverAdds(Init(true), r, 0, {r});
    var l1 := Step(Init(true), a);
    BindSets(l1, r, p);
    var l2 := Step(l1, b);
    DeliverAdds(l2, s, 1, {r, s});
    var l3 := Step(l2, c);
    BindSets(l3, s, p);
    BothOwn(Step(l3, d), r, s);
  }

  lemma BothOwn(l: Ledger, r: RequestId, s: RequestId)
    requires r != s && r in l.deliveries.vals && s in l.deliveries.vals
    requires Owns(l, l.deliveries.vals[r]) && Owns(l, l.deliveries.vals[s])
    ensures OwnedByBoth(l, r, s)
  {
    assert r in l.deliveries.keys && s in l.deliveries.keys;
  }

  lemma FirstStopCounts(stop: StopRecord)
    ensures Step(Init(false), CountStop(TurnStop(stop, None))) ==
            Init(false).(lastStop := Some(TurnStop(stop, None)), stops := 1)
  {}

  /**
   In the fallback: two deliveries in the millisecond of the Stop before them
   are both taken to start the next turn.
   */
  lemma UnstampedOwnTogether(r: RequestId, s: RequestId, stop: StopRecord)
    requires r != s
    ensures var ops := [CountStop(TurnStop(stop, None)), Deliver(r, NOTHING_SEEN, stop.atMs, {r}),
                        Deliver(s, NOTHING_SEEN, stop.atMs, {r, s})];
            OwnedByBoth(Run(false, ops).l, r, s)
  {
    var a, b := CountStop(TurnStop(stop, None)), Deliver(r, NOTHING_SEEN, stop.atMs, {r});
    var c := Deliver(s, NOTHING_SEEN, stop.atMs, {r, s});
    OneByOne(a, b, c, c);
    RunMore(false, [], a);
    RunMore(false, [] + [a], b);
    RunMore(false, [] + [a] + [b], c);
    assert Run(false, []).l == Init(false);
    hide Run, Step, Recorded;
    FirstStopCounts(stop);
    var l1 := Step(Init(false), a);
    assert Quiet(l1, NOTHING_SEEN, {r});
    DeliverAdds(l1, r, stop.atMs, {r});
    var l2 := Step(l1, b);
    assert Quiet(l2, NOTHING_SEEN, {r, s});
    DeliverAdds(l2, s, stop.atMs, {r, s});
    BothOwn(Step(l2, c), r, s);
  }
}
