/**
 The turn ledger as a value: a map of deliveries, a count of Stops, and what
 every operation makes of them. The class `TurnLedger` updates its fields in
 place and is tied to these functions. `open` stands for the answers of the
 server's `finished` callback: the requests it denies.
 */
module Ledgers {
  import opened Records
  import opened OrderedMaps

  datatype TurnFailure = TurnFailure(error: Option<string>, errorDetails: Option<string>)

  /** What the ledger counts: a Stop record, with the failure it was made from, if it was. */
  datatype TurnStop = TurnStop(stop: StopRecord, failure: Option<TurnFailure>)

  /** A tracker turn's end, with what of it can reach a delivery. */
  datatype BoundTurnEnd =
    | BoundStop(stop: StopRecord)
    | BoundFailure(failure: TurnFailure)
    | BoundNext
    | BoundShutdown

  datatype Reason = ItsTurnEnded | ItsTurnFailed | AnotherTurnBegan | NoTurnStarted

  /** Why a prompt is ended, and with what. */
  datatype Ending = Ending(reason: Reason, finalText: Option<string>, failure: Option<TurnFailure>)

  datatype Unanswered = Unanswered(requestId: RequestId, ending: Ending)

  datatype Delivery = Delivery(
    atMs: nat,
    stopsBefore: nat,
    startsTurn: bool,
    promptId: Option<PromptId>,
    firstStop: Option<TurnStop>,
    boundTo: Option<PromptId>,
    ended: Option<Ending>,
    graced: bool)

  /** One reading of the hook files: the latest Stop, the latest tool call, whether hooks run. */
  datatype TurnView = TurnView(stop: Option<StopRecord>, activity: Option<TurnActivity>, hooksActive: bool)

  /** Why a question goes to no request. */
  datatype Denial = NoToolCall | NoPromptId | NoneStarted | SeveralShare | TurnChanged

  datatype QuestionOwner = Owner(requestId: RequestId) | NoOwner(denial: Denial)

  datatype Ledger = Ledger(
    deliveries: OMap<RequestId, Delivery>,
    stops: nat,
    lastStop: Option<TurnStop>,
    lastDeliveryMs: Option<nat>,
    byPromptId: bool)
  {
    /** The delivered requests that are not finished, in the order delivered. */
    function Open(open: set<RequestId>): seq<RequestId> {
      Filter(deliveries.keys, r => r in open)
    }
  }

  function Init(byPromptId: bool): Ledger {
    Ledger(Empty(), 0, None, None, byPromptId)
  }

  function StartBinding(l: Ledger): Ledger {
    l.(byPromptId := true)
  }

  /** Sets `boundTo` of a known delivery; an unknown request changes nothing. */
  function Bind(l: Ledger, requestId: RequestId, promptId: PromptId): Ledger {
    if requestId !in l.deliveries.vals then l
    else l.(deliveries := Put(l.deliveries, requestId, l.deliveries.vals[requestId].(boundTo := Some(promptId))))
  }

  function EndingOf(end: BoundTurnEnd): Option<Ending> {
    match end
    case BoundStop(stop) =>
      if stop.background == Some(false) then Some(Ending(ItsTurnEnded, stop.finalText, None)) else None
    case BoundFailure(failure) => Some(Ending(ItsTurnFailed, None, Some(failure)))
    case BoundNext => Some(Ending(AnotherTurnBegan, None, None))
    case BoundShutdown => None
  }

  /** An open prompt bound to a turn that ended: it ends with it, or is left to the grace rule. */
  function EndDelivery(d: Delivery, end: BoundTurnEnd): Delivery {
    match EndingOf(end)
    case Some(ending) => d.(ended := Some(ending))
    case None => d.(graced := true)
  }

  predicate EndsWith(d: Delivery, requestId: RequestId, promptId: PromptId, open: set<RequestId>) {
    d.boundTo == Some(promptId) && requestId in open && d.ended.None?
  }

  /** Applies `EndDelivery` to exactly the deliveries that `EndsWith` picks; a shutdown changes none. */
  function TurnEnded(l: Ledger, promptId: PromptId, end: BoundTurnEnd, open: set<RequestId>): (n: Ledger)
    ensures n == l.(deliveries := n.deliveries) && n.deliveries.keys == l.deliveries.keys
  {
    if end.BoundShutdown? then l
    else l.(deliveries := WithVals(l.deliveries,
                                   map r | r in l.deliveries.vals ::
                                     var d := l.deliveries.vals[r];
                                     if EndsWith(d, r, promptId, open) then EndDelivery(d, end) else d))
  }

  /** Count a Stop, unless it is no newer than the last one counted. */
  function ObserveStop(l: Ledger, stop: Option<TurnStop>): (n: Ledger)
    ensures n.deliveries.keys == l.deliveries.keys && n.byPromptId == l.byPromptId
  {
    if stop.None? || (l.lastStop.Some? && stop.value.stop.atMs <= l.lastStop.value.stop.atMs) then l
    else
      l.(deliveries := WithVals(l.deliveries,
                                map r | r in l.deliveries.vals ::
                                  var d := l.deliveries.vals[r];
                                  if d.stopsBefore == l.stops then d.(firstStop := stop) else d),
         lastStop := stop,
         stops := l.stops + 1)
  }

  function AsStop(stop: Option<StopRecord>): Option<TurnStop> {
    if stop.Some? then Some(TurnStop(stop.value, None)) else None
  }

  /** The Stop record made of a failure: `background` false, and no text. */
  function FailureAsStop(failure: FailureRecord): TurnStop {
    TurnStop(StopRecord(failure.sessionId, None, Some(false), None, failure.atMs),
             Some(TurnFailure(failure.error, failure.errorDetails)))
  }

  /** Whether a turn has started since the last Stop, as far as tool calls tell. */
  predicate GraceOver(l: Ledger, view: TurnView, nowMs: nat, graceMs: nat) {
    && l.lastStop.Some?
    && !(view.activity.Some? && view.activity.value.atMs > l.lastStop.value.stop.atMs)
    && nowMs - l.lastStop.value.stop.atMs >= graceMs
  }

  const GRACE_RAN_OUT := Some(Ending(NoTurnStarted, None, None))

  /** How an open delivery is ended now, if it is. */
  function Judge(d: Delivery, byPromptId: bool, graceOver: bool): Option<Ending> {
    if byPromptId then
      if d.ended.Some? then d.ended
      else if d.boundTo.Some? && !d.graced then None
      else if d.firstStop.Some? && graceOver then GRACE_RAN_OUT else None
    else if d.firstStop.None? then None
    else
      var first := d.firstStop.value;
      if d.startsTurn && first.stop.background == Some(false) && first.stop.atMs > d.atMs then
        if first.failure.Some? then Some(Ending(ItsTurnFailed, None, first.failure))
        else Some(Ending(ItsTurnEnded, first.stop.finalText, None))
      else if graceOver then GRACE_RAN_OUT else None
  }

  function UnansweredIn(l: Ledger, keys: seq<RequestId>, open: set<RequestId>, graceOver: bool): seq<Unanswered>
    requires forall r <- keys :: r in l.deliveries.vals
  {
    if keys == [] then []
    else
      var last := keys[|keys| - 1];
      var j := Judge(l.deliveries.vals[last], l.byPromptId, graceOver);
      UnansweredIn(l, keys[..|keys| - 1], open, graceOver) +
      if last in open && j.Some? then [Unanswered(last, j.value)] else []
  }

  lemma NoneUnanswered(l: Ledger, open: set<RequestId>, graceOver: bool)
    ensures UnansweredIn(l, l.deliveries.keys[..0], open, graceOver) == []
  {}

  lemma UnansweredNext(l: Ledger, i: nat, open: set<RequestId>, graceOver: bool)
    requires i < |l.deliveries.keys|
    ensures var keys := l.deliveries.keys;
            var j := Judge(l.deliveries.vals[keys[i]], l.byPromptId, graceOver);
            UnansweredIn(l, keys[..i + 1], open, graceOver) ==
            UnansweredIn(l, keys[..i], open, graceOver)
            + if keys[i] in open && j.Some? then [Unanswered(keys[i], j.value)] else []
  {
    assert l.deliveries.keys[..i + 1][..i] == l.deliveries.keys[..i];
    hide Judge;
  }

  lemma {:induction false} UnansweredAreJudged(l: Ledger, keys: seq<RequestId>, open: set<RequestId>, graceOver: bool,
                                               u: Unanswered)
    requires forall r <- keys :: r in l.deliveries.vals
    ensures u in UnansweredIn(l, keys, open, graceOver) <==>
              && u.requestId in keys && u.requestId in open
              && Judge(l.deliveries.vals[u.requestId], l.byPromptId, graceOver) == Some(u.ending)
  {
    if keys != [] {
      var rest := keys[..|keys| - 1];
      UnansweredAreJudged(l, rest, open, graceOver, u);
      assert u.requestId in keys <==> u.requestId in rest || u.requestId == keys[|keys| - 1];
    }
  }

  /** The requests listed, in the order delivered: those open and judged, each once. */
  lemma {:induction false} UnansweredInOrder(l: Ledger, keys: seq<RequestId>, open: set<RequestId>, graceOver: bool)
    requires forall r <- keys :: r in l.deliveries.vals
    ensures var us := UnansweredIn(l, keys, open, graceOver);
            var ids := Filter(keys, r => && r in open && r in l.deliveries.vals
                                         && Judge(l.deliveries.vals[r], l.byPromptId, graceOver).Some?);
            |us| == |ids| && forall i :: 0 <= i < |us| ==> us[i].requestId == ids[i]
  {
    hide Judge;
    if keys != [] {
      UnansweredInOrder(l, keys[..|keys| - 1], open, graceOver);
    }
  }

  /** The ledger after it saw `view`, and the judgements of its open deliveries, in delivery order. */
  function UnansweredNow(l: Ledger, view: TurnView, nowMs: nat, graceMs: nat, open: set<RequestId>)
    : (r: (Ledger, seq<Unanswered>))
  {
    var o := ObserveStop(l, AsStop(view.stop));
    if o.lastStop.None? && !o.byPromptId then (o, [])
    else (o, UnansweredIn(o, o.deliveries.keys, open, GraceOver(o, view, nowMs, graceMs)))
  }

  /** Not guessed to start a turn, and fewer than two Stops were counted since its delivery. */
  predicate MayStillWait(l: Ledger, d: Delivery) {
    !d.startsTurn && l.stops - d.stopsBefore < 2
  }

  /**
   The guess: no Stop with background work, no activity or delivery since the
   last Stop, and no open delivery that may wait.
   */
  predicate Quiet(l: Ledger, view: TurnView, open: set<RequestId>) {
    && view.hooksActive
    && !(view.stop.Some? && view.stop.value.background != Some(false))
    && !(view.activity.Some? && (l.lastStop.None? || view.activity.value.atMs > l.lastStop.value.stop.atMs))
    && !(l.lastDeliveryMs.Some? && (l.lastStop.None? || l.lastDeliveryMs.value > l.lastStop.value.stop.atMs))
    && forall r <- l.deliveries.vals :: r in open ==> !MayStillWait(l, l.deliveries.vals[r])
  }

  function Fresh(nowMs: nat, stopsBefore: nat, startsTurn: bool): Delivery {
    Delivery(nowMs, stopsBefore, startsTurn, None, None, None, None, false)
  }

  /** Adds a fresh delivery whose `startsTurn` is the guess of that moment. */
  function Delivered(l: Ledger, requestId: RequestId, view: TurnView, nowMs: nat, open: set<RequestId>)
    : (r: (Ledger, bool))
  {
    var o := ObserveStop(l, AsStop(view.stop));
    var starts := Quiet(o, view, open);
    var deliveries := Put(o.deliveries, requestId, Fresh(nowMs, o.stops, starts));
    (o.(deliveries := deliveries, lastDeliveryMs := Some(nowMs)), starts)
  }

  predicate Owns(l: Ledger, d: Delivery) {
    if l.byPromptId then d.boundTo.Some? && d.ended.None? && !d.graced
    else d.startsTurn && d.stopsBefore == l.stops
  }

  /** The open deliveries that satisfy `Owns`, in delivery order. */
  function Owning(l: Ledger, open: set<RequestId>): seq<RequestId> {
    Filter(l.deliveries.keys, r => r in open && r in l.deliveries.vals && Owns(l, l.deliveries.vals[r]))
  }

  function Forget(l: Ledger, requestId: RequestId): Ledger {
    l.(deliveries := Delete(l.deliveries, requestId))
  }

  /** The open deliveries whose `boundTo` is `promptId`, in delivery order. */
  function BoundNow(l: Ledger, promptId: PromptId, open: set<RequestId>): (rs: seq<RequestId>)
    ensures forall r <- rs :: r in l.deliveries.vals && r in open && l.deliveries.vals[r].boundTo == Some(promptId)
  {
    Filter(l.deliveries.keys,
           r => r in l.deliveries.vals && l.deliveries.vals[r].boundTo == Some(promptId) && r in open)
  }

  /** In the fallback: the prompts that started the turn now running, by the guess. */
  function Starters(l: Ledger, firstMs: nat): (rs: seq<RequestId>)
    ensures forall r <- rs ::
              r in l.deliveries.vals && l.deliveries.vals[r].startsTurn && l.deliveries.vals[r].stopsBefore == l.stops
  {
    Filter(l.deliveries.keys,
           r => && r in l.deliveries.vals
                && l.deliveries.vals[r].startsTurn && l.deliveries.vals[r].stopsBefore == l.stops
                && firstMs >= l.deliveries.vals[r].atMs)
  }

  /** In the fallback, a starter keeps the prompt id of the first question asked in its turn. */
  function Claim(l: Ledger, requestId: RequestId, promptId: PromptId): (n: Ledger)
    requires requestId in l.deliveries.vals
  {
    var d := l.deliveries.vals[requestId];
    l.(deliveries := Put(l.deliveries, requestId, d.(promptId := Some(d.promptId.GetOr(promptId)))))
  }

  function OwnerNow(l: Ledger, view: TurnView, open: set<RequestId>): (r: (Ledger, QuestionOwner)) {
    if view.activity.None? || (l.lastStop.Some? && view.activity.value.atMs <= l.lastStop.value.stop.atMs) then
      (l, NoOwner(NoToolCall))
    else if view.activity.value.promptId.None? then
      (l, NoOwner(NoPromptId))
    else
      var id := view.activity.value.promptId.value;
      if l.byPromptId then
        var bound := BoundNow(l, id, open);
        if |bound| == 1 then (l, Owner(bound[0]))
        else if bound == [] then (l, NoOwner(NoneStarted))
        else (l, NoOwner(SeveralShare))
      else
        var owners := Starters(l, view.activity.value.firstMs);
        if |owners| != 1 then (l, NoOwner(NoneStarted))
        else
          assert owners[0] in owners;
          var n := Claim(l, owners[0], id);
          if n.deliveries.vals[owners[0]].promptId != Some(id) then (n, NoOwner(TurnChanged))
          else (n, Owner(owners[0]))
  }

  /** The owner as of the Stop that `view` shows, which is counted first. */
  function OwnerOf(l: Ledger, view: TurnView, open: set<RequestId>): (r: (Ledger, QuestionOwner)) {
    OwnerNow(ObserveStop(l, AsStop(view.stop)), view, open)
  }
}

/** The ledger as it runs. */
module LedgerKeeping {
  import opened Records
  import opened OrderedMaps
  import opened Ledgers

  /** `TurnLedger`. */
  class TurnLedger {
    var deliveries: OMap<RequestId, Delivery>
    var stops: nat
    var lastStop: Option<TurnStop>
    var lastDeliveryMs: Option<nat>
    var byPromptId: bool

    ghost function State(): Ledger
      reads this
    {
      Ledger(deliveries, stops, lastStop, lastDeliveryMs, byPromptId)
    }

    constructor ()
      ensures State() == Init(false)
    {
      deliveries, stops, lastStop, lastDeliveryMs, byPromptId := Empty(), 0, None, None, false;
    }

    method StartBinding()
      modifies this
      ensures State() == Ledgers.StartBinding(old(State()))
    {
      byPromptId := true;
    }

    method Bind(requestId: RequestId, promptId: PromptId)
      modifies this
      ensures State() == Ledgers.Bind(old(State()), requestId, promptId)
    {
      if requestId in deliveries.vals {
        deliveries := Put(deliveries, requestId, deliveries.vals[requestId].(boundTo := Some(promptId)));
      }
    }

    /** The body of `turnEnded`'s loop. */
    static method EndOne(d: Delivery, requestId: RequestId, promptId: PromptId, end: BoundTurnEnd, open: set<RequestId>)
      returns (n: Delivery)
      requires !end.BoundShutdown?
      ensures n == if EndsWith(d, requestId, promptId, open) then EndDelivery(d, end) else d
    {
      if d.boundTo != Some(promptId) || requestId !in open || d.ended.Some? {
        return d;
      }
      match end {
        case BoundStop(stop) =>
          if stop.background == Some(false) {
            n := d.(ended := Some(Ending(ItsTurnEnded, stop.finalText, None)));
          } else {
            n := d.(graced := true);
          }
        case BoundFailure(failure) => n := d.(ended := Some(Ending(ItsTurnFailed, None, Some(failure))));
        case BoundNext => n := d.(ended := Some(Ending(AnotherTurnBegan, None, None)));
      }
    }

    /** The loop of `turnEnded`. */
    static method EndEach(ds: OMap<RequestId, Delivery>, promptId: PromptId, end: BoundTurnEnd, open: set<RequestId>)
      returns (vals: map<RequestId, Delivery>)
      requires !end.BoundShutdown?
      ensures vals.Keys == ds.vals.Keys
      ensures forall r <- ds.vals ::
                vals[r] == if EndsWith(ds.vals[r], r, promptId, open) then EndDelivery(ds.vals[r], end) else ds.vals[r]
    {
      hide EndsWith, EndDelivery;
      vals := ds.vals;
      for i := 0 to |ds.keys|
        invariant vals.Keys == ds.vals.Keys
        invariant forall j :: 0 <= j < i ==>
            var d := ds.vals[ds.keys[j]];
            vals[ds.keys[j]] == if EndsWith(d, ds.keys[j], promptId, open) then EndDelivery(d, end) else d
        invariant forall j :: i <= j < |ds.keys| ==> vals[ds.keys[j]] == ds.vals[ds.keys[j]]
      {
        var r := ds.keys[i];
        assert forall j :: 0 <= j < |ds.keys| && j != i ==> ds.keys[j] != r;
        var d := EndOne(vals[r], r, promptId, end, open);
        vals := vals[r := d];
      }
    }

    method TurnEnded(promptId: PromptId, end: BoundTurnEnd, open: set<RequestId>)
      modifies this
      ensures State() == Ledgers.TurnEnded(old(State()), promptId, end, open)
    {
      if end.BoundShutdown? {
        return;
      }
      hide EndsWith, EndDelivery;
      var vals := EndEach(deliveries, promptId, end, open);
      assert vals == Ledgers.TurnEnded(State(), promptId, end, open).deliveries.vals;
      deliveries := WithVals(deliveries, vals);
    }

    /** The loop of `observeStop`. */
    static method SeeStop(ds: OMap<RequestId, Delivery>, stops: nat, stop: Option<TurnStop>)
      returns (vals: map<RequestId, Delivery>)
      ensures vals.Keys == ds.vals.Keys
      ensures forall r <- ds.vals ::
                vals[r] == if ds.vals[r].stopsBefore == stops then ds.vals[r].(firstStop := stop) else ds.vals[r]
    {
      vals := ds.vals;
      for i := 0 to |ds.keys|
        invariant vals.Keys == ds.vals.Keys
        invariant forall j :: 0 <= j < i ==>
            var d := ds.vals[ds.keys[j]];
            vals[ds.keys[j]] == if d.stopsBefore == stops then d.(firstStop := stop) else d
        invariant forall j :: i <= j < |ds.keys| ==> vals[ds.keys[j]] == ds.vals[ds.keys[j]]
      {
        var r := ds.keys[i];
        assert forall j :: 0 <= j < |ds.keys| && j != i ==> ds.keys[j] != r;
        if vals[r].stopsBefore == stops {
          vals := vals[r := vals[r].(firstStop := stop)];
        }
      }
    }

    method ObserveStop(stop: Option<TurnStop>)
      modifies this
      ensures State() == Ledgers.ObserveStop(old(State()), stop)
    {
      if stop.None? {
        return;
      }
      if lastStop.Some? && stop.value.stop.atMs <= lastStop.value.stop.atMs {
        return;
      }
      var vals := SeeStop(deliveries, stops, stop);
      assert vals == Ledgers.ObserveStop(State(), stop).deliveries.vals;
      deliveries := WithVals(deliveries, vals);
      lastStop := stop;
      stops := stops + 1;
    }

    method ObserveFailure(failure: FailureRecord)
      modifies this
      ensures State() == Ledgers.ObserveStop(old(State()), Some(FailureAsStop(failure)))
    {
      ObserveStop(Some(FailureAsStop(failure)));
    }

    /** The body of `unanswered`'s loop, for one open delivery. */
    method JudgeNow(d: Delivery, graceOver: bool) returns (ending: Option<Ending>)
      ensures ending == Judge(d, byPromptId, graceOver)
    {
      if byPromptId {
        if d.ended.Some? {
          return d.ended;
        }
        if d.boundTo.Some? && !d.graced {
          return None;
        }
        if d.firstStop.Some? && graceOver {
          return Some(Ending(NoTurnStarted, None, None));
        }
        return None;
      }
      if d.firstStop.None? {
        return None;
      }
      var first := d.firstStop.value;
      if d.startsTurn && first.stop.background == Some(false) && first.stop.atMs > d.atMs {
        if first.failure.Some? {
          return Some(Ending(ItsTurnFailed, None, first.failure));
        }
        return Some(Ending(ItsTurnEnded, first.stop.finalText, None));
      }
      if graceOver {
        return Some(Ending(NoTurnStarted, None, None));
      }
      return None;
    }

    method UnansweredNow(view: TurnView, nowMs: nat, graceMs: nat, open: set<RequestId>) returns (ends: seq<Unanswered>)
      modifies this
      ensures (State(), ends) == Ledgers.UnansweredNow(old(State()), view, nowMs, graceMs, open)
    {
      ObserveStop(AsStop(view.stop));
      ends := [];
      if lastStop.None? && !byPromptId {
        return;
      }
      var started := lastStop.Some? && view.activity.Some? && view.activity.value.atMs > lastStop.value.stop.atMs;
      var graceOver := lastStop.Some? && !started && nowMs - lastStop.value.stop.atMs >= graceMs;
      assert graceOver == GraceOver(State(), view, nowMs, graceMs);
      ghost var l := State();
      hide UnansweredIn, Judge;
      NoneUnanswered(l, open, graceOver);
      for i := 0 to |deliveries.keys|
        invariant State() == l
        invariant ends == UnansweredIn(l, l.deliveries.keys[..i], open, graceOver)
      {
        var requestId := deliveries.keys[i];
        UnansweredNext(l, i, open, graceOver);
        if requestId in open {
          var ending := JudgeNow(deliveries.vals[requestId], graceOver);
          if ending.Some? {
            ends := ends + [Unanswered(requestId, ending.value)];
          }
        }
      }
      assert deliveries.keys[..|deliveries.keys|] == deliveries.keys;
    }

    method Delivered(requestId: RequestId, view: TurnView, nowMs: nat, open: set<RequestId>) returns (startsTurn: bool)
      modifies this
      ensures (State(), startsTurn) == Ledgers.Delivered(old(State()), requestId, view, nowMs, open)
    {
      ObserveStop(AsStop(view.stop));
      startsTurn := IsQuiet(view, open);
      deliveries := Put(deliveries, requestId, Fresh(nowMs, stops, startsTurn));
      lastDeliveryMs := Some(nowMs);
    }

    /** `owning`. */
    method Owning(open: set<RequestId>) returns (ids: seq<RequestId>)
      ensures ids == Ledgers.Owning(State(), open)
    {
      ids := [];
      ghost var l := State();
      ghost var p := (r: RequestId) => r in open && r in l.deliveries.vals && Owns(l, l.deliveries.vals[r]);
      for i := 0 to |deliveries.keys|
        invariant ids == Filter(deliveries.keys[..i], p)
      {
        FilterNext(deliveries.keys, i, p);
        var requestId := deliveries.keys[i];
        var d := deliveries.vals[requestId];
        if requestId in open {
          var owns := if byPromptId then d.boundTo.Some? && d.ended.None? && !d.graced
                      else d.startsTurn && d.stopsBefore == stops;
          if owns {
            ids := ids + [requestId];
          }
        }
      }
      assert deliveries.keys[..|deliveries.keys|] == deliveries.keys;
    }

    method Forget(requestId: RequestId)
      modifies this
      ensures State() == Ledgers.Forget(old(State()), requestId)
    {
      deliveries := Delete(deliveries, requestId);
    }

    method OwnerOf(view: TurnView, open: set<RequestId>) returns (owner: QuestionOwner)
      modifies this
      ensures (State(), owner) == Ledgers.OwnerOf(old(State()), view, open)
    {
      ObserveStop(AsStop(view.stop));
      if view.activity.None? || (lastStop.Some? && view.activity.value.atMs <= lastStop.value.stop.atMs) {
        return NoOwner(NoToolCall);
      }
      if view.activity.value.promptId.None? {
        return NoOwner(NoPromptId);
      }
      var id := view.activity.value.promptId.value;
      var l := Ledger(deliveries, stops, lastStop, lastDeliveryMs, byPromptId);
      if byPromptId {
        var bound := BoundNow(l, id, open);
        if |bound| == 1 {
          return Owner(bound[0]);
        }
        if bound == [] {
          return NoOwner(NoneStarted);
        }
        return NoOwner(SeveralShare);
      }
      var owners := Starters(l, view.activity.value.firstMs);
      if |owners| != 1 {
        return NoOwner(NoneStarted);
      }
      assert owners[0] in owners;
      var d := deliveries.vals[owners[0]];
      if d.promptId.None? {
        d := d.(promptId := Some(id));
      }
      deliveries := Put(deliveries, owners[0], d);
      if d.promptId != Some(id) {
        return NoOwner(TurnChanged);
      }
      return Owner(owners[0]);
    }

    /** `quiet`. */
    method IsQuiet(view: TurnView, open: set<RequestId>) returns (quiet: bool)
      ensures quiet == Quiet(State(), view, open)
    {
      if !view.hooksActive {
        return false;
      }
      if view.stop.Some? && view.stop.value.background != Some(false) {
        return false;
      }
      if view.activity.Some? && (lastStop.None? || view.activity.value.atMs > lastStop.value.stop.atMs) {
        return false;
      }
      if lastDeliveryMs.Some? && (lastStop.None? || lastDeliveryMs.value > lastStop.value.stop.atMs) {
        return false;
      }
      for i := 0 to |deliveries.keys|
        invariant forall j :: 0 <= j < i ==>
            deliveries.keys[j] in open ==> !MayStillWait(State(), deliveries.vals[deliveries.keys[j]])
      {
        var requestId := deliveries.keys[i];
        if requestId in open && !deliveries.vals[requestId].startsTurn
          && stops - deliveries.vals[requestId].stopsBefore < 2 {
          return false;
        }
      }
      return true;
    }
  }
}
